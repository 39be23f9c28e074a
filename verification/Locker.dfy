/** locker.c: batches of locks, taken in the order of their ids and given back in the
    reverse order of the batches. */
module Locker {
  import opened Sequences
  import opened Sums
  import opened Wrappers

  type Id = nat

  ghost predicate Sorted(s: seq<Id>)
  {
    forall i, j :: 0 <= i < j < |s| ==> s[i] <= s[j]
  }

  ghost predicate Increasing(s: seq<Id>)
  {
    forall i, j :: 0 <= i < j < |s| ==> s[i] < s[j]
  }

  /** The distinct locks among the arguments that are not NULL, in the order of their ids. */
  ghost predicate IsBatch(args: seq<Option<Id>>, batch: seq<Id>)
  {
    Increasing(batch) && forall id :: id in batch <==> Some(id) in args
  }

  lemma {:induction false} IncreasingUnique(s: seq<Id>, t: seq<Id>)
    requires Increasing(s) && Increasing(t) && forall id :: id in s <==> id in t
    ensures s == t
  {
    assert t != [] ==> t[0] in s by {
      if t != [] {
        assert t[0] in t;
      }
    }
    assert s != [] ==> s[0] in t by {
      if s != [] {
        assert s[0] in s;
      }
    }
    if s != [] && t != [] {
      FirstLeast(s, t[0]);
      FirstLeast(t, s[0]);
      forall id ensures id in s[1..] <==> id in t[1..] {
        assert id in s[1..] <==> id in s && id != s[0];
        assert id in t[1..] <==> id in t && id != t[0];
      }
      IncreasingUnique(s[1..], t[1..]);
    }
  }

  lemma FirstLeast(s: seq<Id>, id: Id)
    requires Increasing(s) && id in s
    ensures s[0] <= id
  {
  }

  // ---- The arrays of locker_start ----

  /** isort */
  method ISort(arr: array<Id>, count: nat)
    requires count <= arr.Length
    modifies arr
    ensures Sorted(arr[..count]) && arr[count..] == old(arr[count..])
    ensures multiset(arr[..count]) == old(multiset(arr[..count]))
  {
    var i := 1;
    while i < count
      invariant count == 0 || 1 <= i <= count
      invariant Sorted(arr[..if count == 0 then 0 else i]) && arr[count..] == old(arr[count..])
      invariant multiset(arr[..count]) == old(multiset(arr[..count]))
    {
      ghost var s := arr[..];
      ghost var p := InsertKey(arr, i);
      Inserted(s, p, i, count);
      assert arr[..count] == Shifted(s, p, i)[..count] && arr[..i + 1] == Shifted(s, p, i)[..i + 1];
      i := i + 1;
    }
  }

  /** A round of isort: the key at `i` moves down past the greater ones. */
  method InsertKey(arr: array<Id>, i: nat) returns (ghost p: nat)
    requires i < arr.Length && Sorted(arr[..i])
    modifies arr
    ensures p <= i && arr[..] == Shifted(old(arr[..]), p, i)
    ensures forall k :: 0 <= k < i ==> (old(arr[..])[k] > old(arr[..])[i] <==> p <= k)
  {
    hide Sorted, Shifted;
    ghost var s := arr[..];
    p := MoveDown(arr, i, s);
    IsShifted(arr[..], s, p, i);
    if p > 0 {
      SortedBelow(s, i, p - 1);
    }
  }

  /** The inner loop of isort. */
  method MoveDown(arr: array<Id>, i: nat, ghost s: seq<Id>) returns (ghost p: nat)
    requires i < arr.Length && s == arr[..]
    modifies arr
    ensures p <= i && arr[p] == s[i]
    ensures forall k {:trigger arr[k]} :: 0 <= k < p || i < k < arr.Length ==> arr[k] == s[k]
    ensures forall k {:trigger arr[k]} :: p < k <= i ==> arr[k] == s[k - 1]
    ensures (forall k :: p <= k < i ==> s[k] > s[i]) && (p > 0 ==> s[p - 1] <= s[i])
  {
    var key := arr[i];
    var j := i - 1;
    while j >= 0 && arr[j] > key
      invariant -1 <= j < i
      invariant forall k {:trigger arr[k]} :: 0 <= k <= j || i < k < arr.Length ==> arr[k] == s[k]
      invariant forall k {:trigger arr[k]} :: j + 1 < k <= i ==> arr[k] == s[k - 1]
      invariant forall k :: j < k < i ==> s[k] > key
    {
      arr[j + 1] := arr[j];
      j := j - 1;
    }
    arr[j + 1] := key;
    p := j + 1;
  }

  lemma IsShifted(a: seq<Id>, s: seq<Id>, p: nat, i: nat)
    requires p <= i < |s| == |a|
    requires a[p] == s[i] && forall k {:trigger a[k]} :: 0 <= k < p || i < k < |a| ==> a[k] == s[k]
    requires forall k {:trigger a[k]} :: p < k <= i ==> a[k] == s[k - 1]
    ensures a == Shifted(s, p, i)
  {
    forall k | 0 <= k < |a| ensures a[k] == Shifted(s, p, i)[k] {
      ShiftedAt(s, p, i, k);
    }
  }

  lemma SortedBelow(s: seq<Id>, i: nat, j: nat)
    requires j < i <= |s| && Sorted(s[..i])
    ensures forall k :: 0 <= k <= j ==> s[k] <= s[j]
  {
    assert forall k :: 0 <= k < j ==> s[..i][k] <= s[..i][j];
  }

  lemma Inserted(s: seq<Id>, p: nat, i: nat, count: nat)
    requires p <= i < count <= |s| && Sorted(s[..i]) && forall k :: 0 <= k < i ==> (s[k] > s[i] <==> p <= k)
    ensures var t := Shifted(s, p, i);
      Sorted(t[..i + 1]) && t[count..] == s[count..] && multiset(t[..count]) == multiset(s[..count])
  {
    ShiftedSame(s, p, i, count);
    var u := Shifted(s, p, i)[..i + 1];
    forall a, b | 0 <= a < b < |u| ensures u[a] <= u[b] {
      ShiftedAt(s, p, i, a);
      ShiftedAt(s, p, i, b);
      var c, d := if a > p then a - 1 else a, if b > p then b - 1 else b;
      assert c < d ==> d < i ==> s[..i][c] <= s[..i][d];
    }
  }

  lemma ShiftedAt(s: seq<Id>, p: nat, i: nat, k: nat)
    requires p <= i < |s| && k < |s|
    ensures Shifted(s, p, i)[k] == if k == p then s[i] else if p < k <= i then s[k - 1] else s[k]
  {
  }

  lemma ShiftedSame(s: seq<Id>, p: nat, i: nat, count: nat)
    requires p <= i < count <= |s|
    ensures var t := Shifted(s, p, i); t[count..] == s[count..] && multiset(t[..count]) == multiset(s[..count])
  {
    assert Shifted(s, p, i)[..count] == s[..p] + [s[i]] + s[p..i] + s[i + 1..count];
    assert s[..count] == s[..p] + s[p..i] + [s[i]] + s[i + 1..count];
  }

  lemma NoneIncreasing()
    ensures Increasing([]) && SameIds([], [])
  {
  }

  lemma FirstKept(id: Id)
    ensures Increasing([id]) && SameIds([id], [id])
  {
  }

  lemma IncreasingMore(s: seq<Id>, id: Id)
    requires Increasing(s) && (s != [] ==> s[|s| - 1] < id)
    ensures Increasing(s + [id])
  {
  }

  /** The same ids; it does not matter how often. */
  ghost predicate SameIds(s: seq<Id>, t: seq<Id>)
  {
    forall id :: id in s <==> id in t
  }

  lemma SameIdsMore(s: seq<Id>, t: seq<Id>, id: Id)
    requires SameIds(s, t)
    ensures SameIds(s + [id], t + [id]) && (id in s ==> SameIds(s, t + [id]))
  {
  }

  /** remove_duplicate_complocks */
  method RemoveDuplicates(nums: array<Id>, count: nat) returns (size: nat)
    requires count <= nums.Length && Sorted(nums[..count])
    modifies nums
    ensures size <= count && Increasing(nums[..size])
    ensures SameIds(nums[..size], old(nums[..count]))
  {
    hide Increasing, SameIds;
    ghost var s := nums[..count];
    if count == 0 {
      NoneIncreasing();
      return 0;
    }
    var r := 0;
    ghost var kept := [nums[0]];
    assert s[..1] == kept;
    FirstKept(s[0]);
    for i := 1 to count
      invariant r < i && forall k :: i <= k < count ==> nums[k] == s[k]
      invariant nums[..r + 1] == kept && kept[r] == s[i - 1]
      invariant Increasing(kept) && SameIds(kept, s[..i])
    {
      assert s[..i + 1] == s[..i] + [s[i]];
      assert nums[r] == kept[r];
      SameIdsMore(kept, s[..i], s[i]);
      if nums[r] != nums[i] {
        r := r + 1;
        nums[r] := nums[i];
        IncreasingMore(kept, s[i]);
        kept := kept + [s[i]];
      }
    }
    assert s[..count] == s;
    return r + 1;
  }

  /** What locker_start does with its arguments before it locks anything. */
  method Batch(locks: seq<Option<Id>>) returns (batch: seq<Id>)
    ensures IsBatch(locks, batch)
  {
    var filtered := new Id[|locks|](i => 0);
    var count := 0;
    for i := 0 to |locks|
      invariant count <= i
      invariant forall id :: id in filtered[..count] <==> Some(id) in locks[..i]
    {
      ghost var before := filtered[..count];
      assert locks[..i + 1] == locks[..i] + [locks[i]];
      if locks[i].Some? {
        filtered[count] := locks[i].value;
        count := count + 1;
        assert filtered[..count] == before + [locks[i].value];
      }
    }
    assert locks[..|locks|] == locks;
    if count > 1 {
      ghost var before := filtered[..count];
      ISort(filtered, count);
      assert forall id :: id in filtered[..count] <==> id in multiset(filtered[..count]);
      assert forall id :: id in before <==> id in multiset(before);
      count := RemoveDuplicates(filtered, count);
    }
    batch := filtered[..count];
  }

  // ---- One thread ----

  /** How many of the batches hold the lock. */
  function Held(stack: seq<seq<Id>>, id: Id): nat
  {
    if stack == [] then 0 else Held(stack[..|stack| - 1], id) + if id in stack[|stack| - 1] then 1 else 0
  }

  /** What a thread is doing: running, or inside locker_start or locker_end. */
  datatype Phase = Running | Acquiring(todo: seq<Id>, got: seq<Id>) | Releasing(rest: seq<Id>)

  datatype Thread = Thread(stack: seq<seq<Id>>, phase: Phase) {
    ghost predicate Holds(id: Id)
    {
      || (exists i :: 0 <= i < |stack| && id in stack[i])
      || (phase.Acquiring? && id in phase.got)
      || (phase.Releasing? && id in phase.rest)
    }

    /** The lock that the thread needs next, or -1. */
    ghost function Want(): int
    {
      if phase.Acquiring? && phase.todo != [] then phase.todo[0] else -1
    }
  }

  /** The sections of locker_start and locker_end: each call of idlock_lock or idlock_unlock is
      a move of its own. */
  datatype Move =
    | Begin(args: seq<Option<Id>>, batch: seq<Id>)
    | Acquire
    | Push
    | Pop
    | Release
    | Finish

  ghost function Moved(t: Thread, m: Move): Thread
  {
    match (m, t.phase)
    case (Begin(_, batch), _) => t.(phase := Acquiring(batch, []))
    case (Acquire, Acquiring(todo, got)) => if todo == [] then t else t.(phase := Acquiring(todo[1..], got + [todo[0]]))
    case (Push, Acquiring(_, got)) => Thread(t.stack + [got], Running)
    case (Pop, _) => if t.stack == [] then t else Thread(t.stack[..|t.stack| - 1], Releasing(t.stack[|t.stack| - 1]))
    case (Release, Releasing(rest)) => if rest == [] then t else t.(phase := Releasing(rest[1..]))
    case (Finish, _) => t.(phase := Running)
    case _ => t
  }

  ghost function MovedAll(t: Thread, ms: seq<Move>): Thread
    decreases |ms|
  {
    if ms == [] then t else MovedAll(Moved(t, ms[0]), ms[1..])
  }

  /** What happens to a recursive mutex. */
  datatype LockStep = Locked(id: Id) | Unlocked(id: Id)

  ghost function Traced(t: Thread, m: Move): seq<LockStep>
  {
    match (m, t.phase)
    case (Acquire, Acquiring(todo, _)) => if todo == [] then [] else [Locked(todo[0])]
    case (Release, Releasing(rest)) => if rest == [] then [] else [Unlocked(rest[0])]
    case _ => []
  }

  ghost function TracedAll(t: Thread, ms: seq<Move>): seq<LockStep>
    decreases |ms|
  {
    if ms == [] then [] else Traced(t, ms[0]) + TracedAll(Moved(t, ms[0]), ms[1..])
  }

  function Times(m: Move, n: nat): seq<Move>
  {
    if n == 0 then [] else [m] + Times(m, n - 1)
  }

  function Locks(batch: seq<Id>): seq<LockStep>
  {
    seq(|batch|, i requires 0 <= i < |batch| => Locked(batch[i]))
  }

  function Unlocks(batch: seq<Id>): seq<LockStep>
  {
    seq(|batch|, i requires 0 <= i < |batch| => Unlocked(batch[i]))
  }

  lemma NoneYet()
    ensures Locks([]) == [] && Unlocks([]) == []
  {
  }

  lemma OneMore(batch: seq<Id>, i: nat)
    requires i < |batch|
    ensures Locks(batch[..i + 1]) == Locks(batch[..i]) + [Locked(batch[i])]
    ensures Unlocks(batch[..i + 1]) == Unlocks(batch[..i]) + [Unlocked(batch[i])]
    ensures multiset(batch[..i + 1]) == multiset(batch[..i]) + multiset{batch[i]}
  {
    assert batch[..i + 1] == batch[..i] + [batch[i]];
  }

  /** The moves of a whole locker_start. */
  function StartMoves(args: seq<Option<Id>>, batch: seq<Id>): seq<Move>
  {
    [Begin(args, batch)] + (Times(Acquire, |batch|) + [Push])
  }

  /** The moves of a whole locker_end. */
  function EndMoves(batch: seq<Id>): seq<Move>
  {
    [Pop] + (Times(Release, |batch|) + [Finish])
  }

  /** locker_start locks its batch in order and leaves it on the stack. */
  lemma StartPushes(stack: seq<seq<Id>>, args: seq<Option<Id>>, batch: seq<Id>)
    ensures MovedAll(Thread(stack, Running), StartMoves(args, batch)) == Thread(stack + [batch], Running)
    ensures TracedAll(Thread(stack, Running), StartMoves(args, batch)) == Locks(batch)
  {
    AcquireAll(stack, batch, []);
    assert StartMoves(args, batch)[1..] == Times(Acquire, |batch|) + [Push];
    assert [] + batch == batch;
  }

  lemma {:induction false} AcquireAll(stack: seq<seq<Id>>, todo: seq<Id>, got: seq<Id>)
    ensures var t, ms := Thread(stack, Acquiring(todo, got)), Times(Acquire, |todo|) + [Push];
      MovedAll(t, ms) == Thread(stack + [got + todo], Running) && TracedAll(t, ms) == Locks(todo)
    decreases |todo|
  {
    var t, ms := Thread(stack, Acquiring(todo, got)), Times(Acquire, |todo|) + [Push];
    if todo == [] {
      assert ms == [Push] && got + todo == got;
      assert MovedAll(Moved(t, Push), []) == Thread(stack + [got], Running);
    } else {
      AcquireAll(stack, todo[1..], got + [todo[0]]);
      assert ms[0] == Acquire && ms[1..] == Times(Acquire, |todo| - 1) + [Push];
      assert got + [todo[0]] + todo[1..] == got + todo;
    }
  }

  /** locker_end takes the last batch off the stack and unlocks it. */
  lemma EndPops(stack: seq<seq<Id>>, batch: seq<Id>)
    ensures MovedAll(Thread(stack + [batch], Running), EndMoves(batch)) == Thread(stack, Running)
    ensures TracedAll(Thread(stack + [batch], Running), EndMoves(batch)) == Unlocks(batch)
  {
    ReleaseAll(stack, batch);
    assert EndMoves(batch)[1..] == Times(Release, |batch|) + [Finish];
    assert (stack + [batch])[..|stack|] == stack;
  }

  lemma {:induction false} ReleaseAll(stack: seq<seq<Id>>, rest: seq<Id>)
    ensures var t, ms := Thread(stack, Releasing(rest)), Times(Release, |rest|) + [Finish];
      MovedAll(t, ms) == Thread(stack, Running) && TracedAll(t, ms) == Unlocks(rest)
    decreases |rest|
  {
    var t, ms := Thread(stack, Releasing(rest)), Times(Release, |rest|) + [Finish];
    if rest == [] {
      assert ms == [Finish];
      assert MovedAll(Moved(t, Finish), []) == Thread(stack, Running);
    } else {
      ReleaseAll(stack, rest[1..]);
      assert ms[0] == Release && ms[1..] == Times(Release, |rest| - 1) + [Finish];
    }
  }

  /** The locks that a batch locks once each. */
  lemma {:induction false} BatchCount(batch: seq<Id>, id: Id)
    requires Increasing(batch)
    ensures multiset(batch)[id] == if id in batch then 1 else 0
  {
    if batch != [] {
      var rest := batch[..|batch| - 1];
      BatchCount(rest, id);
      assert batch == rest + [batch[|batch| - 1]];
    }
  }

  lemma HeldPushed(stack: seq<seq<Id>>, batch: seq<Id>, id: Id)
    requires Increasing(batch)
    ensures Held(stack + [batch], id) == Held(stack, id) + multiset(batch)[id]
  {
    BatchCount(batch, id);
    assert (stack + [batch])[..|stack|] == stack;
  }

  /** The locker of a thread, how often the thread has locked each of its recursive mutexes,
      and all that it has done to them. */
  class ThreadLocker {
    var stack: seq<seq<Id>>
    ghost var locked: multiset<Id>
    ghost var trace: seq<LockStep>

    ghost predicate Valid()
      reads this
    {
      && (forall i :: 0 <= i < |stack| ==> Increasing(stack[i]))
      && (forall id :: locked[id] == Held(stack, id))
    }

    constructor ()
      ensures Valid() && stack == []
    {
      stack, locked, trace := [], multiset{}, [];
    }

    /** idlock_lock, once the mutex is free or the thread's own */
    method Lock(id: Id)
      modifies `locked, `trace
      ensures locked == old(locked) + multiset{id} && trace == old(trace) + [Locked(id)]
    {
      locked, trace := locked + multiset{id}, trace + [Locked(id)];
    }

    /** idlock_unlock, on a mutex that the thread has locked */
    method Unlock(id: Id)
      requires id in locked
      modifies `locked, `trace
      ensures locked == old(locked) - multiset{id} && trace == old(trace) + [Unlocked(id)]
    {
      locked, trace := locked - multiset{id}, trace + [Unlocked(id)];
    }

    ghost function AsThread(): Thread
      reads this
    {
      Thread(stack, Running)
    }

    /** The loop of locker_start. */
    method LockAll(batch: seq<Id>)
      modifies `locked, `trace
      ensures locked == old(locked) + multiset(batch) && trace == old(trace) + Locks(batch)
    {
      hide Locks;
      NoneYet();
      for i := 0 to |batch|
        invariant locked == old(locked) + multiset(batch[..i]) && trace == old(trace) + Locks(batch[..i])
      {
        Lock(batch[i]);
        OneMore(batch, i);
      }
      assert batch[..|batch|] == batch;
    }

    /** The loop of locker_end: every lock is the thread's own when it is unlocked. */
    method UnlockAll(batch: seq<Id>, ghost rest: multiset<Id>)
      requires locked == rest + multiset(batch)
      modifies `locked, `trace
      ensures locked == rest && trace == old(trace) + Unlocks(batch)
    {
      hide Unlocks;
      NoneYet();
      for i := 0 to |batch|
        invariant locked == rest + multiset(batch[i..]) && trace == old(trace) + Unlocks(batch[..i])
      {
        NextUnlocked(batch, i, rest);
        Unlock(batch[i]);
        OneMore(batch, i);
      }
      assert batch[..|batch|] == batch;
    }

    /** locker_start: the moves of a thread that locks this batch, and the mutexes in their order */
    method Start(locks: seq<Option<Id>>)
      requires Valid()
      modifies this
      ensures Valid() && |stack| == |old(stack)| + 1 && stack[..|old(stack)|] == old(stack)
      ensures IsBatch(locks, stack[|old(stack)|])
      ensures var ms := StartMoves(locks, stack[|old(stack)|]);
        AsThread() == MovedAll(old(AsThread()), ms) && trace == old(trace) + TracedAll(old(AsThread()), ms)
    {
      hide Held, Increasing, MovedAll, TracedAll, StartMoves;
      var batch := Batch(locks);
      LockAll(batch);
      stack := stack + [batch];
      StartPushes(old(stack), locks, batch);
      forall id ensures locked[id] == Held(stack, id) {
        HeldPushed(old(stack), batch, id);
      }
    }

    lemma LastBatch() returns (rest: multiset<Id>)
      requires Valid() && stack != []
      ensures var locks := stack[|stack| - 1];
        locked == rest + multiset(locks) && forall id :: rest[id] == Held(stack[..|stack| - 1], id)
    {
      var locks := stack[|stack| - 1];
      forall id ensures locked[id] == Held(stack[..|stack| - 1], id) + multiset(locks)[id] {
        BatchCount(locks, id);
      }
      rest := locked - multiset(locks);
    }

    static lemma NextUnlocked(locks: seq<Id>, i: nat, rest: multiset<Id>)
      requires i < |locks|
      ensures locks[i] in rest + multiset(locks[i..])
      ensures rest + multiset(locks[i..]) - multiset{locks[i]} == rest + multiset(locks[i + 1..])
    {
      assert locks[i..] == [locks[i]] + locks[i + 1..];
    }

    /** locker_end, after at least one locker_start: every lock of the last batch is the
        thread's own when it is unlocked, and the rest of the stack stays locked. */
    method End()
      requires Valid() && stack != []
      modifies this
      ensures Valid() && stack == old(stack)[..|old(stack)| - 1]
      ensures var ms := EndMoves(old(stack)[|old(stack)| - 1]);
        AsThread() == MovedAll(old(AsThread()), ms) && trace == old(trace) + TracedAll(old(AsThread()), ms)
    {
      hide Held, Increasing;
      var locks := stack[|stack| - 1];
      ghost var rest := LastBatch();
      stack := stack[..|stack| - 1];
      UnlockAll(locks, rest);
      EndPops(stack, locks);
      assert old(stack) == stack + [locks];
    }
  }

  // ---- Many threads ----

  type Tid = nat

  type Threads = map<Tid, Thread>

  /** The rule of locker.h: a thread may only add locks that come after all the locks it
      has; locking again what it has does no harm. */
  ghost predicate Rule(t: Thread, batch: seq<Id>)
  {
    forall id, h :: id in batch && !t.Holds(id) && t.Holds(h) ==> h < id
  }

  /** A lock can be had if no other thread holds it. */
  ghost predicate Free(ts: Threads, tid: Tid, id: Id)
  {
    forall u :: u in ts && u != tid ==> !ts[u].Holds(id)
  }

  ghost predicate CanMove(ts: Threads, tid: Tid, m: Move)
  {
    && tid in ts
    && var t := ts[tid];
      match m
      case Begin(args, batch) => t.phase.Running? && IsBatch(args, batch) && Rule(t, batch)
      case Acquire => t.phase.Acquiring? && t.phase.todo != [] && Free(ts, tid, t.phase.todo[0])
      case Push => t.phase.Acquiring? && t.phase.todo == []
      case Pop => t.phase.Running? && t.stack != []
      case Release => t.phase.Releasing? && t.phase.rest != []
      case Finish => t.phase.Releasing? && t.phase.rest == []
  }

  /** What a thread still has to lock comes in order, after all that it has and does not lock again. */
  ghost predicate Ordered(t: Thread)
  {
    t.phase.Acquiring? ==>
      Increasing(t.phase.todo) && forall id, h :: id in t.phase.todo && !t.Holds(id) && t.Holds(h) ==> h < id
  }

  /** No lock has two holders, and every thread keeps to the order. */
  ghost predicate Safe(ts: Threads)
  {
    && (forall a, b, id :: a in ts && b in ts && ts[a].Holds(id) && ts[b].Holds(id) ==> a == b)
    && (forall a :: a in ts ==> Ordered(ts[a]))
  }

  /** Every move keeps the locks exclusive and ordered. */
  lemma MoveSafe(ts: Threads, tid: Tid, m: Move)
    requires Safe(ts) && CanMove(ts, tid, m)
    ensures Safe(ts[tid := Moved(ts[tid], m)])
  {
    var us := ts[tid := Moved(ts[tid], m)];
    MovedOrdered(ts, tid, m);
    forall a, b, id | a in us && b in us && us[a].Holds(id) && us[b].Holds(id) ensures a == b {
      if a == tid && b != tid {
        MovedExclusive(ts, tid, m, b, id);
      } else if a != tid && b == tid {
        MovedExclusive(ts, tid, m, a, id);
      }
    }
  }

  lemma MovedExclusive(ts: Threads, tid: Tid, m: Move, u: Tid, id: Id)
    requires Safe(ts) && CanMove(ts, tid, m) && u in ts && u != tid && ts[u].Holds(id)
    ensures !Moved(ts[tid], m).Holds(id)
  {
  }

  lemma MovedOrdered(ts: Threads, tid: Tid, m: Move)
    requires Safe(ts) && CanMove(ts, tid, m)
    ensures Ordered(Moved(ts[tid], m))
  {
    var t, n := ts[tid], Moved(ts[tid], m);
    hide Thread.Holds;
    match m {
      case Begin(args, batch) =>
        BeginHolds(t, batch);
      case Acquire =>
        AcquireHolds(t);
      case _ =>
    }
  }

  lemma BeginHolds(t: Thread, batch: seq<Id>)
    requires t.phase.Running?
    ensures forall id :: t.(phase := Acquiring(batch, [])).Holds(id) <==> t.Holds(id)
  {
  }

  lemma AcquireHolds(t: Thread)
    requires t.phase.Acquiring? && t.phase.todo != []
    ensures forall id :: Moved(t, Acquire).Holds(id) <==> t.Holds(id) || id == t.phase.todo[0]
  {
  }

  // ---- What a thread holds ----

  /** No batch that is on the stack, being locked or being unlocked repeats a lock. */
  ghost predicate Batches(t: Thread)
  {
    && (forall i :: 0 <= i < |t.stack| ==> Increasing(t.stack[i]))
    && match t.phase
       case Running => true
       case Acquiring(todo, got) => Increasing(got + todo)
       case Releasing(rest) => Increasing(rest)
  }

  /** How often a thread has locked a lock and not unlocked it. */
  ghost function Tally(t: Thread, id: Id): nat
  {
    Held(t.stack, id) +
    match t.phase
    case Running => 0
    case Acquiring(_, got) => multiset(got)[id]
    case Releasing(rest) => multiset(rest)[id]
  }

  lemma MoveBatches(ts: Threads, tid: Tid, m: Move)
    requires CanMove(ts, tid, m) && Batches(ts[tid])
    ensures Batches(Moved(ts[tid], m))
  {
    var t := ts[tid];
    match m {
      case Begin(_, batch) => assert [] + batch == batch;
      case Acquire => assert t.phase.got + [t.phase.todo[0]] + t.phase.todo[1..] == t.phase.got + t.phase.todo;
      case Push => assert t.phase.got + [] == t.phase.got;
      case _ =>
    }
    hide Thread.Holds;
  }

  /** A thread holds as often as before what it held, once more what it locks with this move,
      and once less what it unlocks. */
  lemma MoveTally(ts: Threads, tid: Tid, m: Move, id: Id)
    requires CanMove(ts, tid, m) && Batches(ts[tid])
    ensures Tally(Moved(ts[tid], m), id) == Tally(ts[tid], id)
      + multiset(Traced(ts[tid], m))[Locked(id)] - multiset(Traced(ts[tid], m))[Unlocked(id)]
  {
    hide Increasing, Free, Rule, Tally, Moved, Traced;
    match m {
      case Begin(args, batch) => BeginTally(ts[tid], args, batch, id);
      case Acquire => AcquireTally(ts[tid], id);
      case Push => PushTally(ts[tid], id);
      case Pop => PopTally(ts[tid], id);
      case Release => ReleaseTally(ts[tid], id);
      case Finish => FinishTally(ts[tid], id);
    }
  }

  lemma BeginTally(t: Thread, args: seq<Option<Id>>, batch: seq<Id>, id: Id)
    requires t.phase.Running?
    ensures Tally(Moved(t, Begin(args, batch)), id) == Tally(t, id) && Traced(t, Begin(args, batch)) == []
  {
  }

  lemma AcquireTally(t: Thread, id: Id)
    requires t.phase.Acquiring? && t.phase.todo != []
    ensures Tally(Moved(t, Acquire), id) == Tally(t, id) + if id == t.phase.todo[0] then 1 else 0
    ensures Traced(t, Acquire) == [Locked(t.phase.todo[0])]
  {
  }

  lemma PushTally(t: Thread, id: Id)
    requires t.phase.Acquiring? && t.phase.todo == [] && Increasing(t.phase.got + t.phase.todo)
    ensures Tally(Moved(t, Push), id) == Tally(t, id) && Traced(t, Push) == []
  {
    hide Increasing;
    assert t.phase.got + [] == t.phase.got;
    HeldPushed(t.stack, t.phase.got, id);
  }

  lemma PopTally(t: Thread, id: Id)
    requires t.phase.Running? && t.stack != [] && Increasing(t.stack[|t.stack| - 1])
    ensures Tally(Moved(t, Pop), id) == Tally(t, id) && Traced(t, Pop) == []
  {
    hide Increasing;
    var rest := t.stack[..|t.stack| - 1];
    assert t.stack == rest + [t.stack[|t.stack| - 1]];
    HeldPushed(rest, t.stack[|t.stack| - 1], id);
  }

  lemma ReleaseTally(t: Thread, id: Id)
    requires t.phase.Releasing? && t.phase.rest != []
    ensures Tally(Moved(t, Release), id) == Tally(t, id) - if id == t.phase.rest[0] then 1 else 0
    ensures Traced(t, Release) == [Unlocked(t.phase.rest[0])]
  {
    assert t.phase.rest == [t.phase.rest[0]] + t.phase.rest[1..];
  }

  lemma FinishTally(t: Thread, id: Id)
    requires t.phase.Releasing? && t.phase.rest == []
    ensures Tally(Moved(t, Finish), id) == Tally(t, id) && Traced(t, Finish) == []
  {
  }

  /** Holding a lock is having locked it more often than unlocked. */
  lemma HoldsTally(t: Thread, id: Id)
    ensures t.Holds(id) <==> Tally(t, id) > 0
  {
    HeldIn(t.stack, id);
  }

  lemma {:induction false} HeldIn(stack: seq<seq<Id>>, id: Id)
    ensures Held(stack, id) > 0 <==> exists i :: 0 <= i < |stack| && id in stack[i]
    decreases |stack|
  {
    if stack != [] {
      var rest := stack[..|stack| - 1];
      HeldIn(rest, id);
      assert forall i :: 0 <= i < |rest| ==> stack[i] == rest[i];
    }
  }

  // ---- No deadlock ----

  /** A thread waits for another one that holds the lock it needs. */
  ghost predicate WaitsFor(ts: Threads, t: Tid, u: Tid)
  {
    t in ts && u in ts && t != u && ts[t].Want() >= 0 && ts[u].Holds(ts[t].Want())
  }

  ghost predicate WaitsIn(ts: Threads, t: Tid, d: set<Tid>)
  {
    exists u :: u in d && WaitsFor(ts, t, u)
  }

  lemma {:induction false} LargestWanted(ts: Threads, d: set<Tid>) returns (max: Id)
    requires forall t :: t in d ==> t in ts
    ensures forall t :: t in d ==> ts[t].Want() <= max
  {
    if d == {} {
      max := 0;
    } else {
      var t :| t in d;
      max := LargestWanted(ts, d - {t});
      if ts[t].Want() > max {
        max := ts[t].Want();
      }
    }
  }

  /** Whoever is waited for wants a later lock, if anything. */
  lemma WantsLater(ts: Threads, t: Tid, u: Tid, v: Tid)
    requires Safe(ts) && WaitsFor(ts, t, u) && WaitsFor(ts, u, v)
    ensures ts[t].Want() < ts[u].Want()
  {
    assert ts[u].Want() in ts[u].phase.todo;
    hide Thread.Holds;
  }

  ghost predicate AllWait(ts: Threads, d: set<Tid>)
  {
    forall t :: t in d ==> WaitsIn(ts, t, d)
  }

  lemma Awaited(ts: Threads, d: set<Tid>, t: Tid) returns (u: Tid)
    requires AllWait(ts, d) && t in d
    ensures u in d && WaitsFor(ts, t, u)
  {
    hide WaitsFor;
    assert WaitsIn(ts, t, d);
    u :| u in d && WaitsFor(ts, t, u);
  }

  /** From any thread of a set in which all wait, ever later locks are wanted. */
  lemma {:induction false} NotAllWait(ts: Threads, d: set<Tid>, t: Tid, max: Id)
    requires Safe(ts) && t in d && AllWait(ts, d)
    requires forall u :: u in d ==> u in ts && ts[u].Want() <= max
    ensures false
    decreases max - ts[t].Want()
  {
    hide Safe, AllWait, WaitsFor, Thread.Want;
    var u := Awaited(ts, d, t);
    var v := Awaited(ts, d, u);
    WantsLater(ts, t, u, v);
    NotAllWait(ts, d, u, max);
  }

  /** Threads that all keep to the rule never deadlock: in any set of them, some thread
      waits for none of the others. */
  lemma NoDeadlock(ts: Threads, d: set<Tid>)
    requires Safe(ts) && d != {}
    ensures exists t :: t in d && !WaitsIn(ts, t, d)
  {
    hide Safe, Thread.Want, WaitsIn;
    if AllWait(ts, d) {
      AllThere(ts, d);
      var max := LargestWanted(ts, d);
      var t :| t in d;
      NotAllWait(ts, d, t, max);
    }
  }

  lemma AllThere(ts: Threads, d: set<Tid>)
    requires AllWait(ts, d)
    ensures forall t :: t in d ==> t in ts
  {
  }

  // ---- Runs ----

  /** A number of threads that have not locked anything. */
  ghost predicate Fresh(ts: Threads)
  {
    forall t :: t in ts ==> ts[t] == Thread([], Running)
  }

  ghost predicate Moves(ts: Threads, ms: seq<(Tid, Move)>)
    decreases |ms|, 0
  {
    ms == [] || (Moves(ts, ms[..|ms| - 1]) && CanMove(AfterMoves(ts, ms[..|ms| - 1]), ms[|ms| - 1].0, ms[|ms| - 1].1))
  }

  ghost function AfterMoves(ts: Threads, ms: seq<(Tid, Move)>): Threads
    requires Moves(ts, ms)
    decreases |ms|, 1
  {
    if ms == [] then ts
    else
      var us := AfterMoves(ts, ms[..|ms| - 1]);
      us[ms[|ms| - 1].0 := Moved(us[ms[|ms| - 1].0], ms[|ms| - 1].1)]
  }

  lemma {:induction false} MovesSafe(ts: Threads, ms: seq<(Tid, Move)>)
    requires Fresh(ts) && Moves(ts, ms)
    ensures Safe(AfterMoves(ts, ms))
    decreases |ms|
  {
    if ms != [] {
      MovesSafe(ts, ms[..|ms| - 1]);
      hide Safe, Moved;
      MoveSafe(AfterMoves(ts, ms[..|ms| - 1]), ms[|ms| - 1].0, ms[|ms| - 1].1);
    }
  }

  /** No interleaving of any number of threads that keep to the rule deadlocks. */
  lemma NeverDeadlocked(ts: Threads, ms: seq<(Tid, Move)>, d: set<Tid>)
    requires Fresh(ts) && Moves(ts, ms) && d != {}
    ensures exists t :: t in d && !WaitsIn(AfterMoves(ts, ms), t, d)
  {
    hide Safe, WaitsIn, Moves, AfterMoves;
    MovesSafe(ts, ms);
    NoDeadlock(AfterMoves(ts, ms), d);
  }

  /** The batches that a thread has begun to lock and not begun to unlock, last in, first out. */
  function Nested(ms: seq<(Tid, Move)>, tid: Tid): seq<seq<Id>>
    decreases |ms|
  {
    if ms == [] then [] else
      var before := Nested(ms[..|ms| - 1], tid);
      var (u, m) := ms[|ms| - 1];
      if u != tid then before
      else match m
        case Begin(_, batch) => before + [batch]
        case Pop => if before == [] then [] else before[..|before| - 1]
        case _ => before
  }

  /** The stack of a thread as it will be when it has locked the batch it is at. */
  ghost function Stacked(t: Thread): seq<seq<Id>>
  {
    if t.phase.Acquiring? then t.stack + [t.phase.got + t.phase.todo] else t.stack
  }

  /** After any interleaving the stack of each thread is made of exactly its own unfinished batches. */
  lemma {:induction false} BatchesKept(ts: Threads, ms: seq<(Tid, Move)>, tid: Tid)
    requires Fresh(ts) && Moves(ts, ms) && tid in ts
    ensures AfterMoves(ts, ms).Keys == ts.Keys && Batches(AfterMoves(ts, ms)[tid])
    ensures Stacked(AfterMoves(ts, ms)[tid]) == Nested(ms, tid)
    decreases |ms|
  {
    if ms != [] {
      var rest := ms[..|ms| - 1];
      var (u, m) := ms[|ms| - 1];
      BatchesKept(ts, rest, tid);
      var us := AfterMoves(ts, rest);
      if u == tid {
        MoveBatches(us, tid, m);
        MoveStacked(us, tid, m);
      }
    }
  }

  lemma MoveStacked(ts: Threads, tid: Tid, m: Move)
    requires CanMove(ts, tid, m)
    ensures var before, after := Stacked(ts[tid]), Stacked(Moved(ts[tid], m));
      match m
      case Begin(_, batch) => after == before + [batch]
      case Pop => before != [] && after == before[..|before| - 1]
      case _ => after == before
  {
    var t := ts[tid];
    match m {
      case Begin(_, batch) => assert [] + batch == batch;
      case Acquire => assert t.phase.got + [t.phase.todo[0]] + t.phase.todo[1..] == t.phase.got + t.phase.todo;
      case Push => assert t.phase.got + [] == t.phase.got;
      case _ =>
    }
  }

  // ---- All locks are given back ----

  /** The moves that a thread needs to give back all that it has. */
  function StackLeft(stack: seq<seq<Id>>): nat
  {
    if stack == [] then 0 else StackLeft(stack[..|stack| - 1]) + |stack[|stack| - 1]| + 2
  }

  function Left(t: Thread): nat
  {
    StackLeft(t.stack) +
    match t.phase
    case Running => 0
    case Acquiring(todo, got) => 2 * |todo| + |got| + 3
    case Releasing(rest) => |rest| + 1
  }

  function ThreadLeft(): (Tid, Thread) -> nat
  {
    (u: Tid, t: Thread) => Left(t)
  }

  ghost function MovesLeft(ts: Threads): nat
  {
    Sum(ts, ThreadLeft())
  }

  lemma MoveLeft(ts: Threads, tid: Tid, m: Move)
    requires CanMove(ts, tid, m) && !m.Begin?
    ensures MovesLeft(ts[tid := Moved(ts[tid], m)]) == MovesLeft(ts) - 1
  {
    var t := ts[tid];
    assert Left(Moved(t, m)) == Left(t) - 1 by {
      if m.Push? {
        assert (t.stack + [t.phase.got])[..|t.stack|] == t.stack;
      }
    }
    SumUpdate(ts, ThreadLeft(), tid, Moved(t, m));
  }

  /** As long as any thread has a lock or is at a batch, some thread can go on without
      beginning another batch. */
  lemma NeverStuck(ts: Threads, ms: seq<(Tid, Move)>) returns (tid: Tid, m: Move)
    requires Fresh(ts) && Moves(ts, ms) && MovesLeft(AfterMoves(ts, ms)) > 0
    ensures !m.Begin? && CanMove(AfterMoves(ts, ms), tid, m)
  {
    var us := AfterMoves(ts, ms);
    var u := SumWitness(us, ThreadLeft());
    assert us[u] != Thread([], Running) by {
      assert Left(Thread([], Running)) == 0;
    }
    var d := set t | t in us && us[t] != Thread([], Running);
    assert u in d;
    hide WaitsIn;
    NeverDeadlocked(ts, ms, d);
    tid :| tid in d && !WaitsIn(us, tid, d);
    m := CanGoOn(us, d, tid);
  }

  /** Whoever waits for nobody that has a lock can move. */
  lemma CanGoOn(ts: Threads, d: set<Tid>, tid: Tid) returns (m: Move)
    requires d == (set t | t in ts && ts[t] != Thread([], Running)) && tid in d && !WaitsIn(ts, tid, d)
    ensures !m.Begin? && CanMove(ts, tid, m)
  {
    var t := ts[tid];
    match t.phase {
      case Running => m := Pop;
      case Releasing(rest) => m := if rest == [] then Finish else Release;
      case Acquiring(todo, _) =>
        m := if todo == [] then Push else Acquire;
        if todo != [] {
          forall u | u in ts && u != tid ensures !ts[u].Holds(todo[0]) {
            assert ts[u].Holds(todo[0]) ==> u in d && WaitsFor(ts, tid, u);
          }
        }
    }
  }

  /** Once no thread begins another batch there are `MovesLeft` moves to come, in whatever
      order; before the last of them somebody can always move, and after it nobody has any lock. */
  lemma {:induction false} AllGivenBack(ts: Threads, ms: seq<(Tid, Move)>, ns: seq<(Tid, Move)>)
    requires Fresh(ts) && Moves(ts, ms + ns) && forall i :: 0 <= i < |ns| ==> !ns[i].1.Begin?
    ensures Moves(ts, ms)
    ensures MovesLeft(AfterMoves(ts, ms + ns)) == MovesLeft(AfterMoves(ts, ms)) - |ns|
    ensures |ns| < MovesLeft(AfterMoves(ts, ms)) ==> exists tid, m: Move :: !m.Begin? && CanMove(AfterMoves(ts, ms + ns), tid, m)
    ensures |ns| == MovesLeft(AfterMoves(ts, ms)) ==> Fresh(AfterMoves(ts, ms + ns))
    decreases |ns|
  {
    hide CanMove, Moved;
    if ns == [] {
      assert ms + ns == ms;
    } else {
      var init := ns[..|ns| - 1];
      var (u, m) := ns[|ns| - 1];
      assert (ms + ns)[..|ms + ns| - 1] == ms + init && (ms + ns)[|ms + ns| - 1] == (u, m);
      AllGivenBack(ts, ms, init);
      MoveLeft(AfterMoves(ts, ms + init), u, m);
    }
    var us := AfterMoves(ts, ms + ns);
    if MovesLeft(us) == 0 {
      NothingLeft(us);
    } else {
      var tid, m := NeverStuck(ts, ms + ns);
    }
  }

  lemma NothingLeft(ts: Threads)
    requires MovesLeft(ts) == 0
    ensures Fresh(ts)
  {
    SumZero(ts, ThreadLeft());
    forall t | t in ts ensures ts[t] == Thread([], Running) {
      assert ThreadLeft()(t, ts[t]) == 0;
    }
  }

  /** The rule cannot be given up for any batch: against a thread that breaks it there is one
      that keeps it, shares no lock with the first, and with it waits in a circle half-way
      through the batch. */
  lemma RuleNeeded(t: Thread, batch: seq<Id>) returns (u: Thread, done: nat)
    requires t.phase.Running? && Increasing(batch) && !Rule(t, batch)
    ensures done < |batch| && u.phase.Acquiring? && Rule(Thread(u.stack, Running), u.phase.todo)
    ensures var a := Thread(t.stack, Acquiring(batch[done..], batch[..done]));
      var ts: Threads := map[0 := a, 1 := u];
      (forall id :: !(a.Holds(id) && u.Holds(id))) && WaitsFor(ts, 0, 1) && WaitsFor(ts, 1, 0)
  {
    var id, h :| id in batch && !t.Holds(id) && t.Holds(h) && h >= id;
    done :| 0 <= done < |batch| && batch[done] == id;
    u := Thread([[id]], Acquiring([h], []));
    assert id in u.stack[0] && u.Holds(id);
    forall x | u.Holds(x) || Thread(u.stack, Running).Holds(x) ensures x == id {
    }
    var a := Thread(t.stack, Acquiring(batch[done..], batch[..done]));
    assert a.Holds(h) by {
      var i :| 0 <= i < |t.stack| && h in t.stack[i];
    }
    assert !a.Holds(id);
  }
}

# Acid's garbage collector, verified

Acid is a multithreaded collector for C based on reference counts. Every object header has two
plain counts, chosen by a which-bit, and a phantom count. Links between objects are strong, weak
or phantom. When the last strong reference of an object goes, the object is a suspect: a
collector marks what hangs on it as phantoms, recovers what is still referred to from outside,
and deletes the rest. Collectors that meet are joined in a union-find forest of `forward`
pointers, and their work lists are merged.

This project models that collector, the containers and the lock batches it stands on, and the
counter that tells when no work is outstanding. It proves that the collector deletes exactly
what the client cannot reach.

## How it is built

- `Wrappers`, `Sequences`, `Sums`, `Forwarding`: optional values, sequences, sums over maps, and
  the forest of forwarding pointers.
- `Model`: the heap as one value, `State`, and what each operation of `object.c`, `link.c`,
  `collector.c`, `safelist.c` and `acid.c` does to it.
- `Conservation`, `Invariant`: what each count counts, and the invariants of the heap.
  `Keeping`, `Phantomizing`, `CollectPhase`, `RecoverPhase`, `CleanPhase`, `Runs`, `Deletion` and
  `Mutators` prove, operation by operation, that they are kept.
- `Effects`: what single operations do, told by the counts, links and claims before them, where
  the invariants leave room for another outcome.
- `Reach`, `Machine`, `Drain`, `Schedule`: reachability, whole runs, and the theorems about them.
  A step is one call of the client, one whole `collector_run`, or one whole delete task; steps
  follow each other in any order. `Schedule` lets any number of workers take the tasks from a
  queue.
- `Ledger`: the client's own account of its claims and fields, computed from its calls alone, and
  the proof that the heap agrees with it.
- `Records`, `Heap`, `Program`, `CollectorCode`, `CollectorRuns`, `Client`: the C code as methods
  that change records in place. Each method ends in the state that the function of `Model` of the
  same name gives, and every assertion of the C code that the model can express is proved.
- `HashTable` (module `HashTables`) and `Capacity`: the links table. `LinkedList`: the list.
  `Locker`: the lock batches. `Tasks`: the queue and the counter of outstanding work.

## What the client must respect

`Machine.Enabled` states it, and the theorems hold for every run that does:

- `acid_malloc` hands out an address that is not in use;
- the caller of `acid_harden` can reach the object; `acid_dissolve` gives up a claim that exists;
- the caller of `object_set` can reach the object, and holds a claim on a referent that is not NULL;
- the right-hand side of `acid_set` is not NULL.

The rule of `locker.h`, that new locks have a lower priority than the ones obtained already, is
read so: a lock that the thread does not hold yet has a greater id than all it holds, since a
batch is taken in the order of the ids; locking again what the thread holds is allowed. Callers
are assumed to keep to it. `Locker.RuleNeeded` shows that it cannot be given up: for every batch
that breaks it there is a thread that keeps it, and the two wait for each other.

## Findings

- `round_pow_two` with `ARCH_64`, where the largest capacity is 2^63: the smearing stops after
  32 bits. The result is a power of two if and only if `n - 1` has no 32 zero bits in a row below
  its highest set bit (`Capacity.RoundPowTwo`). The first size that fails is 2^32 + 1
  (`Capacity.WideGap`); up to 2^32 the result is right, and so it is without `ARCH_64`.
  Source: lib/collectc/hashtable.c:445-466, lib/collectc/common.h:29-33.
- `hashtable_add` on a full table of the largest capacity refuses every key, even one that the
  table holds and whose value would only be replaced (`HashTables.HashTable.Add`).
  Source: lib/collectc/hashtable.c:169-172 and 418-419.
- A collector without work that others refer to waits, and its task does nothing when it runs.
  That never stops the heap from coming to rest under a fair schedule (`Drain.FairCollection`),
  and the queue of the workers makes every schedule fair (`Schedule.QueueFair`).
  Source: src/collector.c:86-88, src/worker.c:47-82.
- The loop of `object_merge_collectors` does not return where it tests `s == t`, unless another
  worker forwards a collector meanwhile: that both walks end in one collector is noticed a step
  before (the loop invariant of `Program.MergeWalk`). Source: src/object.c:370-406.
- `acid_dissolve` undoes an `acid_harden` exactly if the object had a strong reference before. An
  object that is reached through phantom links only, while its collector waits, may have none: it
  is queued for collection once more (`Effects.HardenUndone`). Source: src/acid.c:42-54.

## Model

| member | source | states |
|---|---|---|
| Drain.FairCollection | src/collector.c:83-137 | when the client stops, every schedule that gives each outstanding task its turn reaches a heap without tasks, in which exactly the objects are left that the client could reach when it stopped |
| Drain.GarbageCollected | src/collector.c:83-137 | from any point of any run there is a finite sequence of task steps after which no task is left and exactly the reachable objects are |
| Drain.EveryTaskHelps | src/collector.c:86-137 | any task step lowers a measure of objects, busy collectors, plain links and collectors, or it is the run of a waiting collector and changes nothing |
| Drain.SomeTaskHelps | src/collector.c:86-137 | as long as tasks are outstanding, one of them lowers the measure |
| Drain.CollectionOnward | src/collector.c:90-124 | a run leaves work only to collectors that had work before, or to the one it has been forwarded to; and it is only forwarded if a plain link became a phantom |
| Drain.LeafFinished | src/counter.c:42-56 | once all lists are empty and no delete task is left, some collector satisfies counter_done |
| Ledger.OnlyWantedLeft | src/collector.c:83-137 | when the client stops, every fair schedule ends with exactly the objects that a chain of fields leads to from a claim, both by the client's own account of its calls |
| Ledger.OnlyWantedAtRest | src/object.c:120-138 | whenever no task is outstanding, the objects that exist are exactly those |
| Ledger.ReachableIsWanted | src/object.c:408-474 | what can be reached in the heap is what the client can get at by its own account, after any run |
| Ledger.FieldsKept | src/object.c:408-474 | after any run, every field of every reachable object holds what the client has last put there, and nothing if it has put nothing there since acid_malloc |
| Ledger.ClaimsKept | src/acid.c:26-77 | after any run, the claims on an object are those made by acid_malloc, acid_harden and acid_set less those given up, since the object was last allocated |
| Schedule.QueueCollection | src/worker.c:47-82 | with the tasks in a queue that any number of workers serve, the heap comes to rest with exactly the reachable objects |
| Schedule.QueueFair | src/worker.c:47-82 | a queue is fair: if workers end what they have taken and come back as long as tasks wait, every outstanding task gets its turn |
| Schedule.QueueExists | src/worker.c:71-82 | a single worker can serve any heap so |
| Schedule.TasksStay | src/collector.c:83-137 | a task step takes away no task but its own |
| Machine.Exactness | src/object.c:120-138 | after any run, if no task is outstanding, the objects not deleted are exactly the reachable ones |
| Machine.TaskSafety | src/collector.c:83-137 | a task step takes no link from a reachable object, and neither removes an object from nor adds one to what the client can reach |
| Machine.DoomedNeverReachable | src/object.c:109-160 | after any run, an object that has been handed to a delete task cannot be reached |
| Machine.CountsExact | src/object.c:120-168 | after any run, the plain count of a bit is the number of unphantomized in-links with it, plus claims and collect entries if it is the object's bit; the phantom count is the phantom in-links plus the entries of the lists other than rebuild |
| Machine.StrongLinksAcyclic | src/object.c:177-236 | after any run, no chain of strong links returns to where it started |
| Machine.ObjectStates | src/object.c:120-138 | an object that is not about to be deleted is a phantom or has a positive strong count, is never only weakly held, is a phantom exactly if its links are, and has a collector exactly if it has phantom references |
| Machine.PhantomLinksLocal | src/link.c:37-53 | both ends of a phantom link have collectors with one representative |
| Machine.CollectorCounters | src/counter.c:18-56 | ref_count is the objects and collectors that point at the collector, store_count the entries of its five lists |
| Machine.QuietReach | src/object.c:120-138 | at rest, strong links lead back from every object to a claim |
| Conservation.DecBalance | src/object.c:120-138 | object_dec gives up one reference of its bit, although it may queue the object again and start a collector |
| Conservation.DecPhantomBalance | src/object.c:146-160 | object_dec_phantom gives up one phantom reference |
| Conservation.AddObjectBalance | src/collector.c:60-81 | the two counts that collector_add_object adds are those of the collect entry |
| Conservation.MergeObjsBalance | src/object.c:354-406 | object_merge_collectors leaves all counts conserved |
| Conservation.MergedListsEntries | src/collector.c:139-161 | collector_merge loses and duplicates no entry |
| Conservation.MergedListsSize | src/collector.c:139-161 | the sizes of the stores move from one collector to the other |
| Forwarding.RepUnion | src/object.c:382-392 | forwarding one representative to another sends its whole tree there, leaves all other representatives alone, and makes no cycle |
| Forwarding.ForestHasLeaf | src/collector.c:42-58 | some collector is not the forward of any other |
| Keeping.DecKeeps | src/object.c:120-138 | object_dec keeps all invariants of the heap; which of its branches is taken is stated by `Effects.DecDeletes`, `DecQueues` and `DecCounts` |
| Keeping.MergeObjsKeeps | src/object.c:354-406 | object_merge_collectors keeps the invariants and leaves both objects in one group |
| Keeping.SuspectQueued | src/object.c:128-136 | queueing a suspect, with a new collector if it has none, adds it to the collect list of its group, and no list loses or gains anything else |
| Phantomizing.PhantomizeLinkKeeps | src/link.c:37-53 | link_phantomize moves one reference from a plain to the phantom count, and keeps the invariants |
| Phantomizing.AcyclicPhantom | src/object.c:187-200 | flipping the which-bit of an object that becomes a phantom makes no cycle of strong links, although all weak links into it turn strong |
| CollectPhase.PhantomizeNodeKeeps | src/object.c:177-236 | object_phantomize_node keeps the invariants, and turns a link into a phantom or changes no list; what it does to the object is stated by `Effects.PhantomizeNodeEffect` |
| CollectPhase.CollectStepKeeps | src/collector.c:99-104 | a round of the collect loop has fewer plain links left, or as many and a shorter list |
| CollectPhase.MergeObjsKept | src/object.c:354-406 | merging on behalf of a collector forwards it, or leaves its merged list alone |
| RecoverPhase.RebuildLinkKeeps | src/object.c:243-269 | object_rebuild_link keeps the invariants, and only the rebuild list of the collector grows |
| RecoverPhase.AcyclicRebuilt | src/object.c:246-255 | the bit that a rebuilt link gets makes no cycle of strong links, even to a target that is still a phantom |
| RecoverPhase.LastPhantom | src/object.c:256-262 | a target that loses its last phantom reference is no phantom and not the source; no list holds it and no other phantom link touches it |
| RecoverPhase.RecoverNodeKeeps | src/object.c:271-317 | object_recover_node keeps the invariants, and restores a link or changes no list |
| RecoverPhase.RebuildStepKeeps | src/collector.c:113-117 | a round of the rebuild loop has fewer phantom links left, or as many and a shorter list |
| RecoverPhase.RecoveryFixpoint | src/collector.c:106-117 | when the rebuild loop has ended, an object of the group is a phantom exactly if both its plain counts are zero, and every phantom link comes from such an object |
| CleanPhase.StripKeeps | src/object.c:329-335 | removing the links of a dead phantom keeps the invariants, and refills no list |
| CleanPhase.CleanNodeKeeps | src/object.c:329-341 | object_clean_node keeps the invariants, and strips only phantoms without plain references |
| CleanPhase.NoPhantomLeft | src/collector.c:119-124 | when the clean loop has ended, no object of the group is a phantom |
| CleanPhase.CleanEnd | src/collector.c:119-124 | the heap is then back in the state between two steps |
| Reach.DoomedUnreachable | src/object.c:109-118 | whoever has a delete task has no references, so no path leads to it |
| Reach.LeftoverUnreachable | src/object.c:329-341 | whoever object_clean_node strips cannot be reached at that moment |
| Reach.CleanLoopSpared | src/collector.c:119-124 | the clean loop takes no link from a reachable object |
| Runs.FinishedMeans | src/counter.c:50-56 | counter_done holds exactly if no object and no collector points at the collector and its lists are empty |
| Runs.TerminateKeeps | src/collector.c:26-40 | destroying such a collector keeps the invariants |
| Runs.CollectorRun | src/collector.c:83-137 | a run ends, with the invariants, and spares everything reachable |
| Deletion.DeleteTaskKeeps | src/object.c:71-114 | a delete task keeps the invariants, removes just its object, which cannot be reached, and spares everything reachable |
| Mutators.MallocKeeps | src/acid.c:26-34 | acid_malloc keeps the invariants (its effect: `Effects.MallocEffect`) |
| Mutators.HardenKeeps | src/acid.c:42-47 | acid_harden keeps the invariants (its effect: `Effects.HardenEffect`) |
| Mutators.DissolveKeeps | src/acid.c:49-54 | acid_dissolve keeps the invariants (its effect: `Effects.DissolveEffect`) |
| Mutators.SetRawKeeps | src/acid.c:61-77 | _acid_set_raw keeps the invariants, also if both sides are one object (the claims it makes and gives up: `Ledger.ClaimsKept`) |
| Mutators.SetFieldKeeps | src/object.c:429-474 | object_set keeps the invariants, on a live object and on a phantom (its effect: `Effects.SetFieldEffect`) |
| Mutators.GetAfterSet | src/object.c:408-474 | object_get finds what object_set put, and every other field as it was |
| Mutators.ReachableAlive | src/object.c:120-138 | whatever the client can reach exists and has no delete task |
| Effects.DecDeletes | src/object.c:120-138 | object_dec requests a deletion exactly if the last strong reference goes and there is no other; then all counts of the object are zero and nothing else has changed |
| Effects.DecQueues | src/object.c:128-136 | it queues the object, as the last entry of its group and with a new collector exactly if it had none, exactly if the last strong reference goes and others are left; the strong count is one again and the phantom count one more |
| Effects.DecCounts | src/object.c:120-124 | in all other cases nothing but that count changes |
| Effects.DecPhantomEffect | src/object.c:146-160 | object_dec_phantom requests a deletion exactly if all counts are zero then, and takes the object from its collector exactly if only the phantom count is |
| Effects.PhantomizeNodeEffect | src/object.c:177-236 | with another strong reference left, only the one of the collector is given back and no flag and no link changes; if it was the last, the object and all its links are phantoms, and its bit is flipped exactly if it had weak references |
| Effects.RecoverNodeEffect | src/object.c:271-317 | an object with a strong reference and its links are no phantoms afterwards; one without is left as it is |
| Effects.RebuildLinkEffect | src/object.c:243-269 | a rebuilt link is strong exactly if its target is another object that is a phantom or has no links; the target is queued if it has other phantom references, and leaves its collector if not |
| Effects.MergeObjsEffect | src/object.c:354-406 | two objects with different collectors point straight at the representative of the target's afterwards, and the other representative forwards to it |
| Effects.ListOrder | src/safelist.c:18-58 | the entries of a list are polled in the order in which they were added |
| Effects.NewLinkEffect | src/object.c:449-468 | the new link of a live object is strong exactly if its target is another object without links, and exactly that count grows by one; that of a phantom is a phantom |
| Effects.SetFieldEffect | src/object.c:429-474 | setting what the field holds already, or clearing an empty field, changes nothing; else the field holds the new target by such a link and no other field changes |
| Effects.MallocEffect | src/acid.c:26-34 | the new object has one claim, one strong reference, no link to or from it, no flag and no collector; no other object changes |
| Effects.HardenEffect | src/acid.c:42-47 | one claim and one strong reference more, and nothing else |
| Effects.DissolveEffect | src/acid.c:49-54 | one claim less; nothing but the strong count changes unless it was one, else the object is queued or deleted according to its other counts |
| Effects.HardenUndone | src/acid.c:42-54 | giving up a claim just made leaves the heap as it was, exactly if the object had a strong reference before |
| Effects.SetRawSame | src/acid.c:61-77 | assigning the object that the variable holds already changes nothing |
| Records.CounterRec.DecRef | src/counter.c:24-28 | ref_count goes down by one; it is never zero when this is called |
| Records.CounterRec.DecStore | src/counter.c:36-40 | store_count goes down by one; it is never zero when this is called |
| Heap.World.SetCollector | src/object.c:25-37 | the object changes its collector, the reference counts of both follow, and the old one does not underflow |
| Heap.World.SafelistAdd | src/safelist.c:18-36 | the entry lands at the end of the chain of forwarded lists, and is counted there |
| Heap.World.SafelistPoll | src/safelist.c:47-58 | the first entry is taken and no longer counted |
| Heap.World.SafelistForward | src/safelist.c:60-69 | all entries move to the other list in order, and the list forwards there |
| Heap.World.CollectorCreate | src/collector.c:11-24 | a new collector with five empty lists, counters at zero and its own identity |
| Heap.World.CollectorUpdate | src/collector.c:185-200 | the walk along the forward pointers ends, at the representative |
| Heap.World.CollectorEquals | src/collector.c:164-183 | the value is true exactly if the representatives are the same, or both are NULL |
| Heap.World.SetForward | src/collector.c:42-58 | the forward pointer changes and both reference counts follow, also for NULL and for the same pointer |
| Heap.World.CollectorMerge | src/collector.c:139-161 | all entries of the five lists move to the survivor, and the other collector forwards to it |
| Heap.World.CollectorAddObject | src/collector.c:60-81 | the object gets both counts and its place in the collect list of the representative |
| Heap.World.ObjectDec | src/object.c:120-138 | ends in the state of `Model.Dec`, whose three outcomes `Effects.DecDeletes`, `DecQueues` and `DecCounts` state; the assertion holds |
| Program.ObjectDecPhantom | src/object.c:146-160 | the phantom count goes down, and at zero the object is deleted or leaves its collector |
| Program.LinkDec | src/link.c:56-66 | the reference of a link is given up in its class |
| Program.LinkPhantomize | src/link.c:37-53 | a link becomes a phantom as the model says; both assertions hold |
| Program.ObjectMergeCollectors | src/object.c:354-406 | the two walks end as the model says, and the result is true exactly if two representatives were joined |
| Program.MergeObjsJoins | src/object.c:354-406 | with at least one collector both objects end up in one group, and exactly one representative is lost if there were two, else none |
| Program.ObjectPhantomizeNode | src/object.c:177-236 | ends in the state of `Model.PhantomizeNode`, early return included (`Effects.PhantomizeNodeEffect`); its assertions hold |
| CollectorCode.ObjectRebuildLink | src/object.c:243-269 | object_rebuild_link as the model says |
| CollectorCode.ObjectRecoverNode | src/object.c:271-317 | object_recover_node as the model says; its assertions hold |
| CollectorCode.ObjectRemoveLinks | src/object.c:85-106 | all links leave the table and are given up |
| CollectorCode.LinkDestroy | src/link.c:26-34 | a link that has left the table gives up its reference |
| CollectorRuns.DrainMerged | src/collector.c:90-97 | merged entries become recovery entries |
| CollectorRuns.DrainCollect | src/collector.c:99-104 | the collect loop, also if the collector is forwarded while it runs |
| CollectorRuns.DrainRecovery | src/collector.c:106-111 | the recovery loop |
| CollectorRuns.DrainRebuild | src/collector.c:113-117 | the rebuild loop |
| CollectorRuns.DrainClean | src/collector.c:119-124 | the clean loop |
| CollectorRuns.ObjectCleanNode | src/object.c:329-341 | object_clean_node as the model says |
| CollectorRuns.CollectorDestroy | src/collector.c:26-40 | nothing refers to the collector when its memory is released |
| CollectorRuns.CollectorRunRec | src/collector.c:83-137 | the imperative run ends in the state of the model, and tells whether to run again |
| Client.ObjectDel | src/object.c:71-83 | the object is released without links |
| Client.DeleteTaskRec | src/object.c:109-114 | a delete task as the model says |
| Client.AcidMalloc | src/acid.c:26-34 | a new object with one strong reference and one claim |
| Client.AcidHarden | src/acid.c:42-47 | one more claim and strong reference, by `Model.Harden` (`Effects.HardenEffect`) |
| Client.AcidDissolve | src/acid.c:49-54 | one claim and strong reference less, by `Model.Dissolve` (`Effects.DissolveEffect`) |
| Client.AcidSetRaw | src/acid.c:61-77 | the claim moves, the new one first, by `Model.SetRaw` (`Ledger.ClaimsKept`, `Effects.SetRawSame`) |
| Client.ObjectGet | src/object.c:408-418 | the target of the field, or none |
| Client.ObjectSet | src/object.c:429-474 | ends in the state of `Model.SetField`, whose links `Effects.SetFieldEffect` states |
| HashTables.HashTable.constructor | lib/collectc/hashtable.c:83-112 | an empty table whose capacity is a power of two |
| HashTables.HashTable.Add | lib/collectc/hashtable.c:166-205 | the key has the new value and all others keep theirs; the capacity doubles if the table is full; a full table of the largest capacity changes nothing |
| HashTables.HashTable.AddNull | lib/collectc/hashtable.c:217-243 | the same for the NULL key, in bucket 0 |
| HashTables.HashTable.Get | lib/collectc/hashtable.c:255-271 | the value of the key exactly if the table holds it |
| HashTables.HashTable.GetNull | lib/collectc/hashtable.c:283-295 | the same for the NULL key |
| HashTables.HashTable.Remove | lib/collectc/hashtable.c:309-341 | the key is gone, all others keep their values, and the old value is returned |
| HashTables.HashTable.RemoveNull | lib/collectc/hashtable.c:354-382 | the same for the NULL key |
| HashTables.HashTable.RemoveAll | lib/collectc/hashtable.c:389-402 | nothing is left, and counting down the freed entries takes the size to zero |
| HashTables.HashTable.Resize | lib/collectc/hashtable.c:415-436 | a table of twice the capacity holds the same entries with the same values |
| HashTables.MoveEntries | lib/collectc/hashtable.c:477-495 | every entry moves to the bucket of its hash in the new array, none is lost or doubled |
| HashTables.HashTableIter.constructor | lib/collectc/hashtable.c:603-617 | iteration over a table that is not empty starts at its first entry |
| HashTables.HashTableIter.Next | lib/collectc/hashtable.c:629-656 | the next entry, bucket after bucket, and the end exactly after the last one |
| HashTables.Foreach | lib/collectc/hashtable.h:144-151 | every entry of a table that is not empty is visited once, and the visits are as many as the size |
| HashTables.HashTable.IterationOrder | lib/collectc/hashtable.h:144-151 | the keys in the order of iteration are the keys of the table without repetition |
| HashTables.MaskInRange | lib/collectc/hashtable.c:547-551 | masking with a capacity that is a power of two, less one, gives an index in range |
| Capacity.RoundPowTwo | lib/collectc/hashtable.c:445-466 | the least power of two that is not less, exactly if no 32 bits in a row are zero; always so up to 2^32 |
| Capacity.SmearFills | lib/collectc/hashtable.c:457-463 | smearing fills all lower bits exactly under that condition |
| Capacity.WideGap | lib/collectc/hashtable.c:445-466 | 2^32 + 1 does not meet it |
| Capacity.MaskIsRemainder | lib/collectc/hashtable.c:547-551 | masking with 2^k - 1 is the remainder by 2^k |
| Capacity.DoublePow2 | lib/collectc/hashtable.c:169-172 | doubling keeps a capacity a power of two |
| LinkedList.SortCorrect | lib/collectc/list.c:1068-1087 | sorting permutes the nodes, in order, and nodes that compare equal stay in the order they had |
| LinkedList.List.SortInPlace | lib/collectc/list.c:1084-1087 | relinking in place gives the sorted sequence with its head, tail and size, for any length and any total preorder |
| LinkedList.List.Split | lib/collectc/list.c:1099-1122 | sorting a section leaves the nodes before and after it linked as they were |
| LinkedList.Merge | lib/collectc/list.c:1142-1200 | two sorted neighbouring sections become their stable merge, with its ends; the left one is exhausted exactly when both pointers meet |
| LinkedList.LinkBehind | lib/collectc/list.c:1765-1785 | a node moves before an earlier one, and all links stay consistent both ways |
| LinkedList.List.Reverse | lib/collectc/list.c:735-759 | the nodes are in reverse order, with head and tail exchanged |
| LinkedList.SwapNodes | lib/collectc/list.c:1821-1895 | two nodes change places, adjacent or not |
| LinkedList.List.AddLast | lib/collectc/list.c:188-207 | one new node at the end |
| LinkedList.List.Unlink | lib/collectc/list.c:1905-1925 | the node is gone, its data is returned, and head and tail follow |
| LinkedList.List.RemoveFirst | lib/collectc/list.c:562-573 | the first node is gone, or the list is empty |
| LinkedList.List.RemoveLast | lib/collectc/list.c:586-597 | the last node is gone, or the list is empty |
| Locker.ISort | src/locker.c:54-64 | the locks are sorted by id and none is lost |
| Locker.RemoveDuplicates | src/locker.c:43-52 | each id is left once, in increasing order |
| Locker.Batch | src/locker.c:72-86 | what is locked is exactly the distinct ids of the arguments that are not NULL, in increasing order |
| Locker.IncreasingUnique | src/locker.c:43-64 | there is only one such batch |
| Locker.ThreadLocker.Start | src/locker.c:72-95 | the batch is locked once each, in order, and pushed, by the moves of `Locker.StartMoves`; each lock is held as often as batches on the stack contain it |
| Locker.ThreadLocker.End | src/locker.c:121-133 | the last batch is unlocked, each lock being the thread's own, by the moves of `Locker.EndMoves`, and the others stay locked |
| Locker.StartPushes | src/locker.c:88-95 | the moves of a whole locker_start lock the batch in its order and leave it on the stack |
| Locker.EndPops | src/locker.c:121-133 | the moves of a whole locker_end take the last batch off the stack and unlock it |
| Locker.MoveTally | src/locker.c:88-133 | a move changes how often a thread holds a lock by exactly the calls of idlock_lock and idlock_unlock in it |
| Locker.BatchesKept | src/locker.c:72-133 | after any interleaving the stack of a thread is made of the batches it has started and not ended, last in, first out |
| Locker.MoveSafe | src/locker.c:72-133 | every move of a thread that keeps to the rule keeps the locks, those on its stack included, exclusive and ordered |
| Locker.NeverDeadlocked | src/locker.h:5-9 | after any interleaving of any number of threads that keep to the rule, no set of them wait for each other |
| Locker.NeverStuck | src/locker.h:5-9 | as long as any thread has a lock or is inside locker_start or locker_end, some thread can go on without starting another batch |
| Locker.AllGivenBack | src/locker.c:72-133 | once no batch is started any more, a fixed number of moves is left in every order, somebody can always move before the last, and after it nobody has a lock |
| Locker.RuleNeeded | src/locker.h:5-9 | for every thread and batch that break the rule there is a thread that keeps it and shares no lock with the first, such that each waits for the other |
| Tasks.AlwaysExact | src/task.c:34-71 | after any interleaving, task_count is the tasks queued, run, or counted and about to be queued |
| Tasks.ZeroMeansQuiet | src/task.c:49-71 | it is zero exactly if the queue is empty and no thread is inside a task or task_start, and it never underflows |
| Tasks.ZeroStays | src/worker.c:57-82 | from then on workers change nothing until a client starts a task |
| Tasks.WorkGoesOn | src/worker.c:71-82 | as long as it is not zero and there is a thread, some thread can go on with the work there is |
| Tasks.FirstInFirstOut | src/worker.c:47-65 | over any interleaving, what was queued and what is queued since is, in that order, what workers take and what is left |
| Tasks.TakenInTurn | src/worker.c:57-65 | a task behind k others is taken by the visit to the queue after the next k |
| Tasks.StepOutstanding | src/task.c:34-71 | task_start adds its task to those that are queued or with a thread, the end of a task removes that one, and no other step adds, removes or exchanges any |
| Tasks.TasksKept | src/task.c:34-71 | after any interleaving, each task is outstanding as often as it was started and has not ended |
| Tasks.AgainDecides | src/task.c:57-71 | the task that the thread ran is queued again if its function returned true, and ends if it returned false |
| Tasks.Workers.StartCount | src/task.c:34-37 | the task is counted before it is queued |
| Tasks.Workers.StartAdd | src/worker.c:47-51 | the counted task, and no other, is queued last |
| Tasks.Workers.GetNextTask | src/worker.c:57-65 | the first task of the queue, or none |
| Tasks.Workers.RunEnd | src/task.c:57-71 | the task is queued again, behind those that wait, or counted off, and those who wait for the end are woken exactly if all work is done |

## Left out

- Interleavings inside one `collector_run`, `object_phantomize_node`, `object_recover_node` or delete task by another worker or the client, and with them the 1 ms wait on `phantomization_complete`: the repository's README lists races there.
- The locks that the collector's functions take are not part of the heap methods; whether its nested calls keep to the rule of `locker.h` is assumed, not proved.
- The lock balance of `collector_equals`, whose forwarding branches do not release what they lock.
- `_acid_set_raw` with NULL on the right-hand side, where the header arithmetic makes no sense.
- Raw memory: header offsets, the magic number, `acid_is_managed`, `xmalloc` and failed allocations, `free`, destructors, and the `link_t` that `object_set` leaks when it overwrites a field.
- Records are compared by identifier. An object may be allocated again at an address that was freed; the identifiers of collectors are never used again.
- An object record holds the contents of its links table and the order of its keys (`HashTables.HashTable.IterationOrder` says that the table provides such an order), and a work list holds a sequence. The hash table and the linked list are verified on their own and not put into the records.
- The load factor of the hash table is a function from capacities to thresholds; hash and comparison of keys are functions and equality. The capacity limit is the one without `ARCH_64`.
- HashTables.HashTableIter.constructor: does not cover an empty table, on which `hashtable_iter_init` sets nothing; the collector asks for the size first.
- LinkedList.List.SortInPlace: asks for a comparator that is a total preorder, as the source's documentation does.
- Schedule.QueueFair: takes it as given that a worker ends the task it has taken and that workers come back to the queue while tasks wait; threads and their scheduling are not part of the model.
- Tasks.ZeroMeansQuiet: does not cover spurious wakeups in `task_wait_for_zero_threads`, which tests the count once, nor the end of the workers.
- `lib/tinycthread`, threads and condition variables themselves; string hashing; the rest of `list.c` (copies, filters, sublists, other iterators), none of which the collector uses.

# AOSL in Dafny

A verification project for the runtime library AOSL: message-queue threads, timers,
reference objects, locks, packet codecs, framed I/O and thread clean-up.  It models the
parts of the runtime whose correctness is not visible from any single function and proves
what they promise over every input, every interleaving or every reachable state.

| files | what they model |
|---|---|
| `Common.dfy`, `RawLock.dfy` | shared types; what a reader/writer lock is to its users |
| `RwLock.dfy`, `RwLockProof.dfy` | the counter-encoded reader/writer lock, one action per atomic operation |
| `RbShape.dfy`, `RbMemory.dfy`, `RbMoves.dfy`, `RbTree.dfy` | the red-black tree with parent pointers: shapes, memory, what groups of pointer writes mean, and the imperative code |
| `TimerBase.dfy`, `TimerTable.dfy` | the timer base (tree, threaded list, first pointer, expiry loop) and the timer handle table with its bitmap |
| `JobBoard.dfy` | what queueing a function promises, without threads |
| `MpQueue.dfy`, `MpQueueProof.dfy`, `MpQueueJobs.dfy`, `MpQueueSync.dfy`, `MpQueueRuns.dfy` | message queues as a state machine, its invariants, its refinement of the board, synchronous calls, and the theorems over whole runs |
| `PoolBarrier.dfy`, `PoolRuns.dfy` | the pool-wide barrier on the board, and on running queues |
| `RefObj.dfy`, `RefObjProof.dfy`, `ObjOnLock.dfy` | reference objects under the upgradeable lock, and the two machines running together |
| `Marshal.dfy`, `ChainStream.dfy`, `StreamCodec.dfy` | the type-directed codec on flat bytes, and on a stream of bytes and empty pieces |
| `PsBuff.dfy`, `ChainPlaces.dfy`, `MarshalChain.dfy` | packet buffers in pieces, when chains of them are read right, and the codec running over a chain |
| `InetText.dfy`, `Inet6Text.dfy`, `Inet.dfy` | text forms of addresses: parsers and grammar, and the printers and parsers themselves |
| `Iofd.dfy` | framed reads and the write queue |
| `ThreadReaper.dfy`, `ThreadReaperProof.dfy` | the life cycle of thread contexts in the ThreadX port |

How the concurrent parts are modelled.  A state holds the shared fields and, for every
thread, its place in the code.  An action is one access that another thread can see, and a
run is any interleaving of enabled actions.  Steps are sequentially consistent; mutexes,
condition variables and atomic operations are primitives; condition variables may wake for
no reason.  Fields called histories (`accepted`, `retired`, `fate`, `log`, `freed`, `writes`,
`frees`, `before`, `counted`, `fired`) are never read by the modelled code; they only record
what happened so that it can be spoken about.  (A new function gets a name that `fate` does
not know yet, and a promise of the pool barrier counts down once in its run.)

How the sequential parts are modelled.  Code that updates structures in place is a class
whose methods update the same fields in the same order.  The tree and the timer list live in
an explicit memory, a map from addresses to nodes, so that every pointer write of the code is
a write of the model; a ghost tree (with a zipper for the place the code is looking at) says
what that memory means.

Results that are not what one would expect from the code's own comments:

- A queue's blocked callers can be forgotten: places in a pool queue are reserved by
  incrementing its count before queueing, so when as many callers hold reservations as the
  queue may hold functions, they wait for each other on an empty queue.
  `MpQueueRuns.BlockedCallersServed` proves that fewer reservations than the limit is exactly
  the safe condition.
- A string of 65535 characters or more does not survive the codec, because lengths with the
  NUL are kept in a `uint16_t` (`Marshal.LongStringLost`); `Marshal.RoundTripExact` proves
  that this is the only exception.
- The expiry that means "never" lies in the other half of the range of the signed comparison,
  so the expiry loop takes it for due as soon as it gets to it: a one-shot set for time zero
  through `aosl_mpq_set_oneshot_timer_on_q` fires in the first call (`TimerBase.ZeroIsAtOnce`).
  `TimerBase.NeverFires` proves when: exactly if all other timers are one-shots that are due.
- A write that the OS took in part and that then finds no memory for the rest is reported
  as failed although its first bytes are sent (`Iofd.BrokenStream`); `Iofd.Writer.Write` states
  exactly when the byte stream is broken.
- The scan for the end of a string takes the byte behind an empty piece for one of the string.
  `ChainPlaces.ComesBackExactly` proves what that costs: a value marshalled into a chain comes
  back from it, whatever lies in spare memory, exactly if its strings fit and no empty piece lies
  between the byte before a string of the encoding and its NUL.  Elsewhere they do no harm;
  they come about where a piece has no room left (`PsBuff.StringAcrossHole`), and with room in
  every piece every message comes back (`MarshalChain.ThereAndBack`).
- Destroying a thread calls `tx_thread_terminate` outside the lock, and the context may be freed
  by then: `ThreadReaperProof.DestroyRace` proves that this can happen exactly if the thread was
  detached when the destroy began, and `ThreadReaperProof.DetachedDestroyRace` is such a run.

## Model

| member | source | states |
|---|---|---|
| `RwLockProof.WordMeaning` | include/kernel/rwlock-generic.h:18-97 | with either mask, in every reachable state the lock word is the number of active and attempting threads plus the waiting bias times (writers plus the waiting flag); with wait_lock free the flag is "somebody is queued"; the word never leaves intptr_t |
| `RwLockProof.MutualExclusion` | lib/rwlockimpl.c:40-219 | in every interleaving, stealing writers and batch-granted readers included, a write holder is the only holder |
| `RwLockProof.NoLostWakeUp` | lib/rwlockimpl.c:105-206 | with wait_lock free, waiters queued and nobody active or mid-attempt, some thread is committed to rwlock_wake or the writer at the head has a pulse or is on its way to re-check |
| `RwLockProof.NobodySleepsUnnoticed` | lib/rwlockimpl.c:105-193 | with wait_lock free, a sleeping thread is in the wait list in its own role, or was granted the lock and has an unconsumed pulse |
| `RwLockProof.OwnerNeverStuck` | lib/rwlockimpl.c:40-103 | the owner of wait_lock can always take its next step |
| `RwLockProof.Decode` | include/kernel/rwlock-generic.h:24-29 | each comparison the code makes on the word tells exactly the numbers of active threads and of biases it is meant to test |
| `RwLockProof.Preserved` | lib/rwlockimpl.c:40-219 | every atomic step keeps the invariant behind these theorems |
| `RwLockProof.RefinesRaw` | lib/rwlockimpl.c:40-219 | seen by its users, every atomic step lets one thread enter or leave for reading or writing as a reader/writer lock allows, turns a writer into a reader, or does nothing |
| `RbShape.BalancedIsShallow` | lib/rbtree.c:86-221 | the balance that insert and erase keep bounds the depth by twice the base-2 logarithm of the number of nodes |
| `RbTree.Root.RotateLeft` | lib/rbtree.c:44-63 | the pointer writes are a left rotation of the subtree: memory represents the rotated tree, and no node but the three rotated ones and their parent is written |
| `RbTree.Root.RotateRight` | lib/rbtree.c:65-84 | the mirror image |
| `RbTree.Root.InsertLeft` | lib/rbtree.c:93-118 | one turn of the insertion loop under a left parent: the red uncle is recoloured and the conflict moves two levels up, or one or two rotations end it |
| `RbTree.Root.InsertRight` | lib/rbtree.c:118-143 | the same under a right parent |
| `RbTree.Root.InsertColor` | lib/rbtree.c:86-148 | from a red leaf put into a valid tree: the loop ends with a balanced tree, same in-order sequence, black root, count one more |
| `RbTree.Root.Insert` | include/kernel/rbtree.h:27-41 | inserting keeps parent/child consistency, no red-red edge, equal black heights and count = number of nodes, and changes the in-order sequence by exactly the one node at the given link |
| `RbTree.Root.EraseLeft` | lib/rbtree.c:154-185 | one turn of the erase loop under a missing black on the left: ends, or moves it one level up, with in-order kept |
| `RbTree.Root.EraseRight` | lib/rbtree.c:186-217 | the same on the right |
| `RbTree.Root.EraseColor` | lib/rbtree.c:150-221 | the loop ends and pays the missing black everywhere: the whole tree is balanced again, in-order kept |
| `RbTree.Root.Splice` | lib/rbtree.c:268-279 | a node with at most one child is linked out, and memory represents the tree without it |
| `RbTree.Root.Replace` | lib/rbtree.c:250-264 | the successor takes over the place, links and colour of the node |
| `RbTree.Root.Descend` | lib/rbtree.c:235-240 | the loop finds the in-order successor |
| `RbTree.Root.Erase` | lib/rbtree.c:223-285 | erasing any node keeps every tree invariant and count, and removes exactly that node from the in-order sequence, everything else in order |
| `TimerBase.TimeAfterEqExact` | include/kernel/timer.h:80-81 | the signed-difference test is the order of the two times exactly when they are less than half the range apart |
| `TimerBase.FarDue` | include/kernel/timer.h:80-81 | an expiry in the other half of the range passes for due exactly if it is more than half the range ahead |
| `TimerBase.LinkedIn` | kernel/timer.c:287-307 | the list writes turn the doubly linked list through s into the one through s with the timer put in, first pointer included |
| `TimerBase.LinkedOut` | kernel/timer.c:338-358 | the list writes close the gap in both directions |
| `TimerBase.Base.LinkList` | kernel/timer.c:287-307 | performs those writes, with the tree parent standing in for the successor when there is no predecessor, and touches no time |
| `TimerBase.Base.UnlinkList` | kernel/timer.c:338-358 | performs those writes and poisons the timer's own links |
| `TimerBase.Base.Find` | kernel/timer.c:251-285 | the descent ends at the link behind every timer that expires no later and before every later one, with its list predecessor |
| `TimerBase.Base.Insert` | kernel/timer.c:322-336 | list, tree and first pointer stay one sorted sequence; the timer goes behind all that expire no later, so equal expiries stay in arrival order; it is marked scheduled |
| `TimerBase.Base.Unlink` | kernel/timer.c:365-370 | the timer leaves list and tree, exactly it, and is poisoned |
| `TimerBase.Base.Schedule` | kernel/timer.c:372-389 | the three expiry rules, and the place they give the timer |
| `TimerBase.Base.Cancel` | kernel/timer.c:402-406 | afterwards the timer is not scheduled; nothing else changed |
| `TimerBase.Base.Reschedule` | kernel/timer.c:391-400 | wherever the timer was, it is afterwards in the one place its new expiry says |
| `TimerBase.Base.FireFirst` | kernel/timer.c:494-532 | one turn of the expiry loop: the earliest timer leaves, and a periodic one is put back at its old expiry plus its interval plus the clock's advance |
| `TimerBase.Base.RunDue` | kernel/timer.c:487-542 | the loop ends; firings are in expiry order and not early; firings of one timer are at least its interval apart; exactly the due timers fire, each within its budget, periods of zero included; what stays is later than now and only due one-shots went; one-shots beyond the window all fire if everything before them went and the first of them passes for due, and none fires otherwise |
| `TimerBase.FarFires` | kernel/timer.c:487-542 | a one-shot beyond the window fires in a call if and only if all timers in the window are due one-shots and the first one beyond is more than half the range ahead |
| `TimerBase.NeverFires` | kernel/timer.c:383-384 | with all-ones as the only expiry beyond the window: it fires if and only if every other timer is a due one-shot, at every time but the last of the window |
| `TimerBase.ZeroIsAtOnce` | kernel/timer.c:877-887 | a one-shot set for time zero on an empty base fires in the first call of the loop |
| `TimerBase.Base.Create` | kernel/timer.c:408-446 | a new timer is known and not scheduled, and everything else is as before |
| `TimerBase.Base.Set` | kernel/timer.c:707-717 | a new timer is in the one place its expiry says; time zero on a one-shot means all-ones |
| `TimerBase.UnderwayEnds` | kernel/timer.c:494-542 | what the loop keeps at every turn gives, where it stops, the whole account of the call |
| `TimerBase.TurnKeepsProgress` | kernel/timer.c:494-541 | every turn keeps order, spacing, budget and account of the firings, and uses up budget |
| `TimerBase.BudgetSpent` | kernel/timer.c:526-530 | a re-arm never raises floor((now - expiry) / interval) + 1, and uses up a unit when the timer moves by its interval, or by the clock if that is zero |
| `TimerBase.QuotientIsFloor` | kernel/timer.c:526-530 | the quotient in the budget is the rounded-down one |
| `TimerTable.FindFirstZero` | lib/bitmap.c:110-141 | the least zero bit, or -1 when all are set |
| `TimerTable.Table.Grow` | kernel/timer.c:83-121 | growth keeps all entries; it fails without memory, and at 248 slots because the bitmap's size is a uint8_t |
| `TimerTable.Table.GetUnused` | kernel/timer.c:76-127 | an id whose slot is free and that nobody else was promised; fails exactly when all slots are in use and there are 248 of them or no memory for more |
| `TimerTable.Table.Install` | kernel/timer.c:152-174 | the slot is always found empty; the handle encodes slot and number of the install modulo 65535 |
| `TimerTable.Table.Uninstall` | kernel/timer.c:176-193 | empties the slot if and only if this timer is in it |
| `TimerTable.Table.Free` | kernel/timer.c:201-216 | only now the id can be given out again |
| `TimerTable.Table.Get` | kernel/timer.c:218-244 | the installed timer whose handle this is, and nothing if there is none |
| `TimerTable.Table.HandlesDiffer` | kernel/timer.c:137-150 | handles of timers that are not freed are all different |
| `TimerTable.Table.HandleMeans` | kernel/timer.c:152-244 | a handle equals that of the slot's occupant if and only if the installs between them are a multiple of 65535; for a timer that is gone that multiple is not zero |
| `MpQueueRuns.NoLostKick` | kernel/osmp.c:92-187 | a queue asleep without timeout although a function is queued or it was told to terminate can wake by a kick already there, or a caller between its change and its kick sees need_kicking set |
| `MpQueueRuns.CommittedGoesOn` | kernel/mpq.c:346-359 | such a caller is never blocked, and whichever step it takes, fewer are left until its kick, or there is a kick already, or none is needed |
| `MpQueueProof.RecountKicked` | kernel/osmp.c:145-177 | an empty count at the last test leaves at most a caller that is about to count itself, and that one will kick |
| `MpQueueRuns.Conserved` | kernel/mpq.c:371-491 | count is queued plus in batch plus running plus pool reservations; usage, wait_q_count and kick_q_count count exactly their holders, waiters, and kicks in the pipe or under way |
| `MpQueueRuns.FirstInFirstOut` | kernel/mpq.c:671-703 | each queue starts functions in the order it accepted them, each once, and the rest still wait in order |
| `MpQueueRuns.ExactlyOnce` | kernel/mpq.c:624-652 | a function is run at most once on its target, and then at most once more: on its done queue, or free-only where it ran when that queue is gone |
| `MpQueueRuns.NothingLost` | kernel/mpq.c:624-703 | when all queues are gone, every function was refused, or had its one run, or its second one too when it had a done queue and ran with a live object |
| `MpQueueRuns.DrainedWhenGone` | kernel/mpq.c:800-850 | a destroyed queue has run everything it accepted, nobody is left who could add to it, and it never changes again |
| `MpQueueRuns.SyncRan` | kernel/mpq.c:449-463 | a synchronous call, which waits for its result flag only, returns only after its target ran the function, unless it was refused |
| `MpQueueRuns.TellsTheWaiting` | kernel/mpq.c:653-669 | the queue's thread writes that flag only while the call is still there to be told, once, and after the function was executed and counted off |
| `MpQueueRuns.SyncServed` | kernel/mpq.c:450-463 | a call that waits for its flag can go on, or its queue still has the function or is about to set the flag |
| `MpQueueSync.SyncedKept` | kernel/mpq.c:371-669 | every step keeps waiting calls and the functions they wait for matched one to one |
| `MpQueueRuns.BlockedCallersServed` | kernel/mpqp.c:207-228 | callers blocked on full queues are always woken if and only if fewer reservations can be outstanding than a queue may hold functions |
| `MpQueueRuns.CrowdDeadlocks` | kernel/mpqp.c:207-228 | for every limit, a run in which reserving callers wait on an empty queue |
| `MpQueueRuns.NobodyForgotten` | kernel/mpq.c:430-491 | within the bound, whoever is blocked has a function, a wake-up or a waker before it |
| `MpQueueJobs.RefinesBoard` | kernel/mpq.c:371-703 | every step of the queues is a move of the thread-free specification, or none |
| `JobBoard.Kept` | kernel/mpq.c:624-703 | every move keeps each function in exactly one place and its recorded runs equal to what its fate demands |
| `MpQueueProof.SoundKept` | kernel/mpq.c:235-850 | every step keeps queues, calls, locks and counters consistent |
| `MpQueueProof.KickedKept` | kernel/osmp.c:116-187 | every step keeps the promise that overlooked work is followed by a kick |
| `PoolRuns.OnlyAfterAll` | kernel/mpqp.c:732-821 | in every run of the queues with a barrier: when the promised function has run, everything any queue of the pool had accepted when the barrier was called has been executed |
| `PoolRuns.RunsOnce` | kernel/mpqp.c:732-761 | the promised function never runs twice, and has run when the pool's queues are gone |
| `PoolRuns.PostReady` | kernel/mpqp.c:806-810 | while the pool's lock is held the next promise can always be queued: no queue of the pool goes away |
| `PoolRuns.Projected` | kernel/mpqp.c:763-821 | a run with a barrier is a run of the message queues |
| `PoolRuns.Guards` | kernel/mpqp.c:806-810 | a promise goes to its own queue and is not refused, because of the call that carries it |
| `PoolBarrier.Preserved` | kernel/mpqp.c:732-821 | every move of the board keeps promises on their queues, in order, and the counter exact |
| `PoolRuns.CounterExact` | kernel/mpqp.c:763-811 | the counter is the number of promises still to count down, and is zero exactly when the function has run |
| `RefObjProof.NoLiveAfterDestroy` | kernel/refobj.c:858-963 | once aosl_ref_destroy has succeeded no function runs with the live object, then or ever after |
| `RefObjProof.LiveApart` | kernel/refobj.c:673-705 | two functions run with the live object together only if both merely hold the read lock |
| `RefObjProof.UpgradeAtomic` | kernel/thread.c:278-309 | no write section comes between a thread's read section and its upgraded write section, in either direction; so the object is not destroyed when the upgrading thread looks again |
| `RefObjProof.AbortNeedsTwo` | kernel/thread.c:278-297 | a step that would abort finds another upgrade under way; the abort in refobj_wrlock is never reached |
| `RefObjProof.AbortsExactly` | kernel/thread.c:278-297 | in every reachable state a call's step aborts if and only if it tries for an upgrade while another call has rd2wrlock_count set |
| `RefObjProof.TwoUpgradesAbort` | kernel/thread.c:278-297 | a run of thirteen steps in which two calls upgrade, and one aborts |
| `RefObjProof.NoAbort` | kernel/refobj.c:630-647 | with at most one upgrade at a time no run reaches an abort |
| `RefObjProof.FreedOnce` | kernel/refobj.c:500-566 | the object is freed exactly when the last reference goes, at most once, and never while somebody holds one |
| `RefObjProof.CallerFrees` | kernel/refobj.c:927-948 | with caller_free, when the deleting call returns at most the references of its own thread are left, and the object is freed if and only if there are none |
| `RefObjProof.NoLeak` | kernel/refobj.c:920-957 | deleted and with nobody left, the object was freed |
| `RefObjProof.UsesRaw` | kernel/thread.c:215-309 | every step on the object's lock is one that a reader/writer lock allows |
| `ObjOnLock.StepsApart` | lib/rwlockimpl.c:40-219 | when an object's calls go through the lock's own steps, with no other guard, each step is one that the object's model allows, and lock and object agree on who is in |
| `ObjOnLock.Apart` | kernel/thread.c:215-309 | a run of the two together is a run of the lock and a run of the object |
| `ObjOnLock.LiveApart` | kernel/refobj.c:673-705 | on this lock, two functions run with the live object together only as readers |
| `ObjOnLock.WriterAlone` | kernel/thread.c:225-309 | on this lock, a call in its write section is the lock's one holder |
| `Marshal.RoundTrip` | lib/marshalling.c:317-574 | for every descriptor and well-formed value whose strings fit, decoding the encoding gives the value and leaves what follows untouched |
| `Marshal.RoundTripExact` | lib/marshalling.c:595-976 | decoding the encoding gives the value back if and only if every string with its NUL is shorter than 65536 bytes |
| `Marshal.LongStringLost` | lib/marshalling.c:462-480 | a string of 65535 characters is encoded as its flag alone and cannot be decoded |
| `Marshal.StrictPrefixFails` | lib/marshalling.c:634-704 | a message cut short anywhere is refused |
| `Marshal.Extends` | lib/marshalling.c:622-976 | bytes after a message never change what is decoded |
| `Marshal.DecodedFits` | lib/marshalling.c:792-866 | whatever is decoded has strings that fit a uint16_t length |
| `PsBuff.FlatPut` | include/kernel/psbuff.h:87-101 | a put at the end of the written part appends to the chain's bytes |
| `PsBuff.StreamPull` | include/kernel/psbuff.h:103-161 | a get takes the first bytes of what is left, and leaves the rest as it was |
| `PsBuff.Chain.PutBytes` | lib/marshalling.c:330-393 | bytes are appended whatever the sizes of the pieces, new ones being allocated, and without pieces that have no room no empty piece is left behind; on failure a proper prefix was written, every piece is full and none can be had |
| `PsBuff.Chain.GetBytes` | lib/marshalling.c:634-701 | the next n bytes across pieces, stepping over empty ones, or failure exactly when fewer are left; empty pieces behind them stay ahead |
| `PsBuff.Chain.StringSize` | lib/marshalling.c:595-619 | the size of the string in what the scan sees, or failure exactly when that has no NUL; an empty piece after the current one counts for the byte behind its start |
| `ChainPlaces.LookedExact` | lib/marshalling.c:595-619 | for every chain with a string at the cursor: its size is found right, whatever lies in spare memory, if and only if no empty piece comes before its NUL |
| `PsBuff.StringAcrossHole` | lib/marshalling.c:330-393 | a chain with a piece that is reserved in full: the string written across it is in the chain, and its size is misread |
| `MarshalChain.MarshalTo` | lib/marshalling.c:317-574 | the chain grows by exactly the flat encoding for every choice of piece sizes, with its byte count; on failure by a proper prefix of it |
| `MarshalChain.UnmarshalFrom` | lib/marshalling.c:622-976 | for every chain, result, bytes consumed and failures are what the stream of its bytes and empty pieces says |
| `ChainPlaces.ReadsAsFlat` | lib/marshalling.c:622-976 | with empty pieces at the end only, that is what the flat decoder says of the bytes; with none after the current one, its failures too |
| `StreamCodec.ReturnsExactly` | lib/marshalling.c:595-976 | a value whose encoding begins a stream comes back, whatever empty pieces hold, if and only if its strings are shorter than 65536 bytes with their NUL and no empty piece lies between the byte before one and its NUL |
| `StreamCodec.Intact` | lib/marshalling.c:622-976 | with no empty piece in a string, the value comes back with exactly its bytes, wherever else empty pieces lie |
| `StreamCodec.Misled` | lib/marshalling.c:601-612 | with an empty piece in a string, some content of spare memory makes the reader fail or return another value |
| `ChainPlaces.ComesBackExactly` | lib/marshalling.c:595-976 | the same for chains of pieces: with p bytes before an empty piece, and a string from offset s with its NUL at z, the value always comes back if and only if never s <= p <= z, and strings fit |
| `MarshalChain.ThereAndBack` | lib/marshalling.c:590-982 | marshalling a value into any chain and unmarshalling that chain: what is read is what the chain's stream says; if no empty piece lies in a string it is the value and the same byte count, and with room in every piece none does |
| `InetText.Parse4Exact` | net/inet.c:131-172 | inet_pton4 accepts exactly what inet_ntop4 prints and returns the same octets |
| `Inet6Text.Complete` | net/inet.c:191-282 | every text of the grammar of section 2.2 of RFC 4291 is accepted with its value |
| `Inet6Text.Parse6Exact` | net/inet.c:191-282 | inet_pton6 accepts exactly the texts of that grammar and returns the address each stands for |
| `Inet.BestUnique` | net/inet.c:51-71 | there is one best run of zero groups |
| `Inet.FindRun` | net/inet.c:47-71 | the loop finds the leftmost longest run of at least two zero groups, or that there is none (section 4.2 of RFC 5952) |
| `Inet.CanonValue` | net/inet.c:72-98 | what is printed is in the grammar and stands for the address |
| `Inet.PrintsOnce` | net/inet.c:37-105 | an address has one printed form |
| `Inet.RoundTrip6` | net/inet.c:37-282 | parsing the printed form of any 16-byte address, embedded IPv4 included, gives the address back |
| `Inet.Ntop4` | net/inet.c:25-35 | what is written is parsed back to the same octets and fits with its NUL; failure exactly when no text that stands for them fits |
| `Inet.PrintInto` | net/inet.c:72-98 | the printing loop writes exactly the text of the address and stays inside its 46 bytes |
| `Inet.Ntop6` | net/inet.c:37-105 | the printed form, or failure exactly when it does not fit with its NUL |
| `Inet.Pton4` | net/inet.c:131-172 | the loop computes the specified parse |
| `Inet.Spread` | net/inet.c:267-277 | the bytes behind "::" go to the end and zeros come in between, in place |
| `Inet.ScanText` | net/inet.c:215-258 | the loop over the characters computes the specified scan |
| `Inet.Pton6` | net/inet.c:191-282 | the address the text stands for, or nothing |
| `Iofd.Stream.Deliver` | kernel/iofd.c:116-142 | a packet goes to the user, through the post-processing callback, and the rest is what was left behind it |
| `Iofd.Stream.Drain` | kernel/iofd.c:82-173 | the packets delivered, the rest and the verdict are those of cutting the buffered bytes at the checker's answers |
| `Iofd.CutMore` | kernel/iofd.c:82-173 | for a checker that keeps its answers when more bytes follow, cutting now and again after more bytes is cutting them all at once |
| `Iofd.Stream.MoveDown` | kernel/iofd.c:175-182 | the overlapping move in place keeps the unread bytes |
| `Iofd.Stream.MakeRoom` | include/kernel/iofd.h:162-188 | if the checker decides within the maximal packet size, the next read is offered at least 1024 bytes |
| `Iofd.Stream.ReadData` | kernel/iofd.c:74-201 | over any sequence of reads, delivered packets followed by the unread part of the buffer are all bytes read; with a checker that keeps its answers they are what cutting all bytes at once gives, however the reads were split; pointers stay in bounds and every read is offered at least 1024 bytes; after the end of a stream a call reports one more empty packet and does not read |
| `Iofd.Writer.Write` | kernel/iofd.c:716-755 | when a write is accepted, when it finds no memory, what the OS took; accepted bytes are the bytes taken followed by the queued remainders, except exactly when a write was taken in part and no memory was there; total_len is the sum of node sizes and at most 128 KiB |
| `Iofd.BrokenStream` | kernel/iofd.c:733-750 | a call that is reported as failed although its first byte is sent |
| `Iofd.Writer.WriteData` | kernel/iofd.c:211-247 | draining the queue through partial writes keeps that equation |
| `ThreadReaperProof.JoinExcludesReaping` | platform/src/asr3603/aosl_hal_thread.c:703-757 | a context somebody joins is not detached, queued for reaping, being reaped or to be destroyed |
| `ThreadReaperProof.QueueExact` | platform/src/asr3603/aosl_hal_thread.c:222-262 | the reap queue is exactly the enqueued contexts, without repeats, and does not hold the one being reaped; the native thread is gone before the context is taken off the list |
| `ThreadReaperProof.FreedOnce` | platform/src/asr3603/aosl_hal_thread.c:302-427 | a context is freed at most once, by its joiner or by the reaper, and neither they nor its own thread, which signals outside the lock, use it afterwards |
| `ThreadReaperProof.JoinerWoken` | platform/src/asr3603/aosl_hal_thread.c:425-427 | a waiting joiner can go on, or its thread has its completion or its signal still before it |
| `ThreadReaperProof.DestroyTouch` | platform/src/asr3603/aosl_hal_thread.c:541-590 | destroying touches a freed context only if the context was detached when the destroy began |
| `ThreadReaperProof.DestroyRace` | platform/src/asr3603/aosl_hal_thread.c:541-590 | in every reachable state with a destroy about to call tx_thread_terminate, the call can come to be made on a freed context if and only if the context was detached when the destroy began |
| `ThreadReaperProof.DetachedDestroyRace` | platform/src/asr3603/aosl_hal_thread.c:541-590 | a run of ten steps from the start that touches a freed context |

## Left out

- RwLockProof.WordMeaning: for fewer threads than the bias encoding presupposes (0x7fffffff, or 0x7fff with the short mask); the load and the compare-and-swap of the writer's slow path are one step, and the stack lifetime of waiters is not modelled.
- RbTree.Root.Insert: node addresses are keys of an explicit memory instead of machine pointers, and colour and parent are two fields instead of one packed word; Relink tests the left child first where `__rb_rotate_right` tests the right one, which is the same for a node that is a child of its parent.
- RbTree.Root.Erase: the successor is first linked out and then takes over the node's fields, which is the order of the code; the comparison-based find, insert and remove wrappers and the traversals of lib/rbtree.c are not modelled.
- TimerBase.Base.RunDue: for callbacks that leave timers alone, clocks that do not go back, the present time below 2^63, and periodic timers whose next expiry is below 2^63 as well; with a period of zero, for clocks that move at some time, since the loop does not end before that; the alternative build without delay accumulation is not modelled.
- TimerTable.Table.Get: a timer's own reference count is not modelled, only the point at which it is freed; the tables of queues and reference objects have the same form and are not repeated.
- MpQueueRuns.NoLostKick: a pipe write fails only when the pipe holds an unread byte; kicks without the additional lock of the builds other than Linux; queue ids are not reused.
- MpQueueRuns.ExactlyOnce: whether an invocation gets the live or the free-only object is left open, as it depends on the reference object; removal of a queue from its pool and the reference taken on it are one step.
- MpQueueRuns.Conserved: kick_q_count is exact for the pipe; with an event it only grows, since only the pipe's reader subtracts.
- PoolRuns.OnlyAfterAll: for one barrier at a time on a pool, which is any set of queues in a pool; the run on the done queue after the promised function, and a failing allocation of the counter, are not modelled.
- RefObjProof.NoLiveAfterDestroy: for objects that modify synchronously; recursive read locks of one thread and the aborts on callers that hold the read lock themselves are not modelled.
- RefObjProof.CallerFrees: how many references the calling thread holds besides is a parameter of the call, not a count kept per thread.
- Marshal.RoundTrip: the layout of values in memory (sizes, offsets, the malloc of decoded parts) is abstracted to value trees; presence callbacks (`is_have`) are absent; fixed arrays have at most 65535 elements, since the loop counter is a uint16_t.
- MarshalChain.MarshalTo: pieces after the current one are empty when encoding, as the code presupposes.
- MarshalChain.ThereAndBack: what lies past the end of a piece's memory is one byte for all pieces; ChainPlaces.ComesBackExactly has no such limit.
- Inet.Ntop6: sprintf's `%x` and `%u` are functions of the model; the address family dispatch is not modelled.
- Iofd.Stream.ReadData: callbacks leave the descriptor open, and the checker only looks at the bytes.
- ThreadReaperProof.FreedOnce: a native thread that was deleted runs no more; addresses of contexts are not reused; a thread that cannot be resumed after creation is not modelled.
- Epoll, poll and select back ends, DNS, routes, sockets, logging, memory statistics and the other platform ports: I/O plumbing and thin wrappers.
- lib/cond.c and the lazy initialisation of static locks: condition variables and mutexes are primitives here.
- The varargs, argv and data variants of the queueing calls: one generic call stands for them.
- Liveness under unfair scheduling: the theorems say who is bound to act, not that the scheduler lets it.

# A verified model of the OpenUH OpenMP runtime

This project models the concurrent and arithmetic core of the OpenUH OpenMP runtime, mostly of
`libopenmp-OpenUH/libopenmp_OpenUH_new`, in Dafny, and proves what that core is relied on for: its task queues,
its task scheduler, its barriers, fork and join, loop scheduling, ordered loops, nested locks, and the CRC-32 of
the MCA libraries.  `dafny verify dfyconfig.toml` checks all of it.

## How the model is built

**Protocols.**  Code whose correctness depends on interleaving is a deterministic step function over a state: every
volatile read or write, atomic increment, compare-and-swap and lock operation of one thread is one step, and a
schedule is any sequence of steps of any threads.  The theorems hold after every schedule.  Memory is sequentially
consistent.  Team size, capacity, number of threads and length of the run are unbounded.  Fields that exist only
for the proof (episode counters, histories, nesting depths) are named in the comments; no step reads them.

| module | what it models | source |
|---|---|---|
| `LocklessDeque` | the compare-and-swap deque | omp_queue.c:974-1089 |
| `CfifoRing`, `CfifoCalls` | the two-lock FIFO ring: puts, gets and transfers of chunks | omp_queue.c:401-551 |
| `TaskScheduler`, `TaskPlacement`, `TaskKinds`, `TaskCounters`, `TaskBarrier`, `TiedTasks`, `TaskRuns`, `TaskLives`, `TaskCalls`, `TaskProgress`, `TaskQueues` | tasks, work stealing and the draining barrier | omp_task_pool.c:175-342, omp_task.c:91-308, omp_thread.h:321-393 |
| `DisseminationBarrier`, `TournamentBarrier`, `TreeBarrier` | the flag barriers and the building of their structures | omp_xbarrier.c:162-171, 230-305, 332-431 |
| `ForkJoin`, `ForkJoinProgress` | level-1 fork, slaves, level-1 barrier | omp_thread.c:851-903, 1009-1063, 1611-1643 |
| `NestLock` | the nestable lock | omp_lock.c:146-179, 217-228, 252-277 |
| `OrderedLoop`, `OrderedSteps` | ordered loops under every schedule | omp_runtime.c:681-836, 1672-1727 |

**Data structures under one lock** (`ArrayQueue`, `ListQueue`) are classes whose methods update the fields the code
updates, specified by the sequential queue of `Deque`: each method's contract says that the call, with the answer it
gave, is a legal operation taking the old contents to the new.  The lock-free deque is proved against the same
sequential queue.

**Arithmetic** (`LoopSpace`, `StaticSchedule`, `DynamicSchedule`, `CollapsedLoop`, `Crc32`) is written as the code
computes it, C quotients rounding towards zero included, and proved against what the loop statement, or the
bit-at-a-time division, does.

For each protocol there are two kinds of results: what holds in every reachable state, and what a call has done when it
is over (`...Returns`, `...Waits`, `...Passes`, `RunsOnce`, `AccessesPerBarrier`), whatever the other threads did
meanwhile.  Progress is stated as a thread that is not blocked or stuck coming nearer to the end of its call with every
step, or within a stated number of steps.

`Arith` and `Counting` hold facts about remainders and about set sizes.

## What the code does not do

* Collapsed loops read the bounds of 32-bit levels as unsigned words, so a level whose bounds have different signs is
  miscounted: -5 to 5 counts as empty (`CollapsedLoop.MinusFiveToFive`), 5 to -5 as 4294967287 iterations
  (`CollapsedLoop.FiveToMinusFive`).  The exceptions are the empty loops from 0 to -1 by 1 and from -1 to 0 by -1, whose
  count wraps round to 0.  `CollapsedLoop.LengthRightIff` proves that these are all the exceptions.
* Ordered static-even collapsed loops with some iterations, but fewer than threads, deadlock: the first thread's range is
  empty and the count starts with it.  `CollapsedLoop.EvenOrderedRightIff` proves that with no iterations, or at least as
  many as threads, they are right.
* The second test of `head->prev` in the splice of the list queue (omp_queue.c:889-890) never finds a link to cut when
  the queue is full, the only time the splice is called (`ListQueue.SecondTestNeverFires`); `ListQueue.Splice` keeps
  the branch.

## Model

| member | source | states |
|---|---|---|
| LocklessDeque.NextCorrect | libopenmp-OpenUH/libopenmp_OpenUH_new/omp_queue.c:1014-1089 | every access of the owner (put_tail, get_tail) or of a thief (get_head) keeps the invariant and acts on the abstract deque as a push, a pop, a steal, or not at all |
| LocklessDeque.Linearizable | libopenmp-OpenUH/libopenmp_OpenUH_new/omp_queue.c:1014-1089 | under every interleaving of one owner and any number of thieves the operations that change the deque, and the owner's NULL answers, in the order they take effect, are a legal run of a sequential double-ended queue ending in the present contents |
| LocklessDeque.PutsAreTrace | libopenmp-OpenUH/libopenmp_OpenUH_new/omp_queue.c:1073-1089 | the pushes of that run are exactly the puts that returned success, in order |
| LocklessDeque.GetsAreTrace | libopenmp-OpenUH/libopenmp_OpenUH_new/omp_queue.c:1014-1071 | its pops and steals are exactly the items handed to callers, each as often |
| LocklessDeque.Conservation | libopenmp-OpenUH/libopenmp_OpenUH_new/omp_queue.c:1004-1089 | no put item is lost, returned twice or overwritten while live; with the owner idle, items put = items returned + the slots from head to tail |
| LocklessDeque.PutRefusedIffFull | libopenmp-OpenUH/libopenmp_OpenUH_new/omp_queue.c:1004-1012 | a put is refused exactly when the deque held num_slots - 1 items at the call, whatever thieves do meanwhile |
| LocklessDeque.TakeReturns | libopenmp-OpenUH/libopenmp_OpenUH_new/omp_queue.c:1039-1071 | when a get_tail is over, whatever thieves did meanwhile, exactly one removal at the tail stands for it in that run, and its answer is what the caller got: the item at the tail, or NULL at a moment with nothing in the deque |
| LocklessDeque.PutReturns | libopenmp-OpenUH/libopenmp_OpenUH_new/omp_queue.c:1073-1089 | when a put_tail is over exactly one push of its item stands for it if it says success, none if it says failure, and it says failure exactly when the deque held num_slots - 1 items at the call |
| LocklessDeque.StealReturns | libopenmp-OpenUH/libopenmp_OpenUH_new/omp_queue.c:1014-1037 | when a get_head is over it has removed the head item it returns, once, or removed nothing and returns NULL; NULL only if at some moment between its call and its return the deque was empty, the owner was deciding about the last item, or another had moved the head |
| LocklessDeque.ThiefFinishes | libopenmp-OpenUH/libopenmp_OpenUH_new/omp_queue.c:1014-1037 | a steal is wait-free: three of the thief's own steps finish it |
| LocklessDeque.OwnerFinishes | libopenmp-OpenUH/libopenmp_OpenUH_new/omp_queue.c:1039-1089 | the owner's operations are wait-free: six of its own steps finish any of them |
| Deque.RunConserves | libopenmp-OpenUH/libopenmp_OpenUH_new/omp_queue.c:99-287 | through any legal run of the sequential queue no item is lost, duplicated or invented |
| Deque.GetAnswers | libopenmp-OpenUH/libopenmp_OpenUH_new/omp_queue.c:133-237 | a get is legal exactly if its answer in front of (or behind) what remains gives the old contents, and NULL only of an empty queue |
| Deque.PutAnswers | libopenmp-OpenUH/libopenmp_OpenUH_new/omp_queue.c:239-287 | a put is legal exactly if the item is added at its end, or refused by a queue that holds all it can |
| Deque.RunIsFifo | libopenmp-OpenUH/libopenmp_OpenUH_new/omp_queue.c:401-457 | put at the tail and got from the head, items come out in the order they went in |
| Deque.GetUndoesPut | libopenmp-OpenUH/libopenmp_OpenUH_new/omp_queue.c:203-287 | a get right after an accepted put at the same end returns that item and restores the queue |
| CfifoRing.NextInv | libopenmp-OpenUH/libopenmp_OpenUH_new/omp_queue.c:401-551 | every access and lock operation of any putter, getter or transfer keeps the ring's invariant |
| CfifoRing.FirstInFirstOut | libopenmp-OpenUH/libopenmp_OpenUH_new/omp_queue.c:401-551 | under every interleaving of puts, gets and transfers the items taken are a prefix of the items put |
| CfifoRing.ReturnsItsItem | libopenmp-OpenUH/libopenmp_OpenUH_new/omp_queue.c:440-548 | a getter returns the item that was next in order although it publishes the head before reading the slot; a transfer returns and moves the next items in order although putters go on while it copies |
| CfifoRing.TransfersAllItCan | libopenmp-OpenUH/libopenmp_OpenUH_new/omp_queue.c:490-501 | a transfer takes as many items as asked for, as there are when it counts them, and as fit |
| CfifoRing.NullOnlyWhenDrained | libopenmp-OpenUH/libopenmp_OpenUH_new/omp_queue.c:425-489 | a get or a transfer returns NULL only when every completed put has been consumed, or nothing was asked for |
| CfifoRing.RefusedIffFull | libopenmp-OpenUH/libopenmp_OpenUH_new/omp_queue.c:401-415 | a put is refused exactly when all slots but one are taken |
| CfifoRing.QuietContents | libopenmp-OpenUH/libopenmp_OpenUH_new/omp_queue.c:382-399 | with no operation in flight the slots from head to tail hold the items not yet got, and is_empty is right |
| CfifoRing.NoDeadlock | libopenmp-OpenUH/libopenmp_OpenUH_new/omp_queue.c:401-551 | the two locks never deadlock: while an operation is in flight some operation can step |
| CfifoCalls.PutReturns | libopenmp-OpenUH/libopenmp_OpenUH_new/omp_queue.c:401-423 | when a put is over it has put its item once and says so, or nothing, having seen the ring full |
| CfifoCalls.GetReturns | libopenmp-OpenUH/libopenmp_OpenUH_new/omp_queue.c:425-457 | when a get is over it returns the one item it has taken, or NULL, with nothing taken and every completed put consumed |
| CfifoCalls.TransferReturns | libopenmp-OpenUH/libopenmp_OpenUH_new/omp_queue.c:462-551 | when a transfer is over it hands on exactly the items it has taken, as many as asked for, there and fitting, or none with the ring drained or nothing asked for |
| CfifoCalls.OperationsProgress | libopenmp-OpenUH/libopenmp_OpenUH_new/omp_queue.c:401-551 | every unblocked step of an operation brings it nearer to its end, so a bounded number finish it |
| ArrayQueue.Queue.constructor | libopenmp-OpenUH/libopenmp_OpenUH_new/omp_queue.c:66-79 | a new queue is empty |
| ArrayQueue.Queue.GetHead | libopenmp-OpenUH/libopenmp_OpenUH_new/omp_queue.c:133-164 | removes and returns the first item of the sequence, or NULL when it is empty |
| ArrayQueue.Queue.GetTail | libopenmp-OpenUH/libopenmp_OpenUH_new/omp_queue.c:203-237 | removes and returns the last item, or NULL |
| ArrayQueue.Queue.StealHead | libopenmp-OpenUH/libopenmp_OpenUH_new/omp_queue.c:99-131 | as get_head, but gives up with NULL and no effect when the lock is taken |
| ArrayQueue.Queue.StealTail | libopenmp-OpenUH/libopenmp_OpenUH_new/omp_queue.c:166-201 | as get_tail, but gives up when the lock is taken |
| ArrayQueue.Queue.PutTail | libopenmp-OpenUH/libopenmp_OpenUH_new/omp_queue.c:239-259 | appends, or refuses exactly when num_slots - 1 items are held |
| ArrayQueue.Queue.PutHead | libopenmp-OpenUH/libopenmp_OpenUH_new/omp_queue.c:261-287 | prepends, or refuses exactly when num_slots - 1 items are held |
| ArrayQueue.Queue.Regrow | libopenmp-OpenUH/libopenmp_OpenUH_new/omp_queue.c:564-574 | the longer array continues behind the old end where the old one had wrapped |
| ArrayQueue.Queue.Resize | libopenmp-OpenUH/libopenmp_OpenUH_new/omp_queue.c:557-577 | doubling leaves the sequence as it was, whether or not it wraps |
| ArrayQueue.Queue.DynPutTail | libopenmp-OpenUH/libopenmp_OpenUH_new/omp_queue.c:579-598 | the growing queue always accepts, and appends |
| ArrayQueue.Queue.DynPutHead | libopenmp-OpenUH/libopenmp_OpenUH_new/omp_queue.c:600-624 | the growing queue always accepts, and prepends |
| ArrayQueue.Queue.CopyChunk | libopenmp-OpenUH/libopenmp_OpenUH_new/omp_queue.c:341-355 | the copy loops, in one run or in two, put the chunk's items at the front of dst |
| ArrayQueue.Queue.TransferChunk | libopenmp-OpenUH/libopenmp_OpenUH_new/omp_queue.c:294-377 | old src = [returned item] + new dst + new src, and the chunk is as large as asked for, available, and fitting |
| ArrayQueue.Queue.CfifoNumUsedSlots | libopenmp-OpenUH/libopenmp_OpenUH_new/omp_queue.c:382-394 | the count computed from the two indices is the length of the sequence |
| ArrayQueue.Queue.CfifoTransferChunk | libopenmp-OpenUH/libopenmp_OpenUH_new/omp_queue.c:462-551 | the same transfer without the count of used slots |
| ListQueue.RingInverse | libopenmp-OpenUH/libopenmp_OpenUH_new/omp_queue.c:663-682 | prev is the inverse of next-or-adjacent, and neither leads out of the ring |
| ListQueue.RingIsOneCycle | libopenmp-OpenUH/libopenmp_OpenUH_new/omp_queue.c:663-682 | the links form one cycle: from the head every slot is reached, and after num_slots steps the head again |
| ListQueue.FirstSegmentIsRing | libopenmp-OpenUH/libopenmp_OpenUH_new/omp_queue.c:663-673 | initialisation makes a ring of the first segment |
| ListQueue.Splice | libopenmp-OpenUH/libopenmp_OpenUH_new/omp_queue.c:882-894 | the pointer updates change four links, and nothing else, when tail and head are neighbours |
| ListQueue.SecondTestNeverFires | libopenmp-OpenUH/libopenmp_OpenUH_new/omp_queue.c:887-890 | between linked neighbours the first update leaves head->prev NULL, so that the second test fails |
| ListQueue.SplicedIsRing | libopenmp-OpenUH/libopenmp_OpenUH_new/omp_queue.c:869-897 | after splicing the old slots followed by the new ones form one ring, every item in place |
| ListQueue.Queue.AddSlots | libopenmp-OpenUH/libopenmp_OpenUH_new/omp_queue.c:869-897 | growing leaves the queue's contents unchanged |
| ListQueue.Queue.GetHead | libopenmp-OpenUH/libopenmp_OpenUH_new/omp_queue.c:742-779 | removes and returns the first item of the sequence, or NULL |
| ListQueue.Queue.GetTail | libopenmp-OpenUH/libopenmp_OpenUH_new/omp_queue.c:823-862 | removes and returns the last item, or NULL |
| ListQueue.Queue.PutTail | libopenmp-OpenUH/libopenmp_OpenUH_new/omp_queue.c:899-929 | always accepts and appends, growing when full |
| ListQueue.Queue.PutHead | libopenmp-OpenUH/libopenmp_OpenUH_new/omp_queue.c:931-964 | always accepts and prepends, growing when full |
| TaskPlacement.NextPlaced | libopenmp-OpenUH/libopenmp_OpenUH_new/omp_task.c:91-308 | every step keeps every task in exactly one place: being created, in one queue, on one stack, or finished |
| TaskKinds.NextKinds | libopenmp-OpenUH/libopenmp_OpenUH_new/omp_task.c:111-178 | every step keeps undeferred tasks out of the queues and on top of a task that is in the middle of its code |
| TaskCounters.NextCounted | libopenmp-OpenUH/libopenmp_OpenUH_new/omp_task.c:211-264 | every step keeps num_children, num_blocking_children and num_pending_tasks equal to the numbers of deferred tasks they stand for |
| TaskRuns.OwnTailAllowed | libopenmp-OpenUH/libopenmp_OpenUH_new/omp_task_pool.c:234-237 | what a thread takes from the tail of its own queue descends from every tied task it has suspended outside a barrier |
| TaskRuns.StolenHeadExposed | libopenmp-OpenUH/libopenmp_OpenUH_new/omp_task_pool.c:285-327 | once a child of a task has been stolen from the head, nothing older than that task is left in the queue |
| TaskRuns.NextInv | libopenmp-OpenUH/libopenmp_OpenUH_new/omp_task.c:91-308 | placement, counters, barrier and task tree are kept by every step of every thread |
| TaskRuns.TiedConstraint | libopenmp-OpenUH/libopenmp_OpenUH_new/omp_task_pool.c:196-201 | in every reachable state each task on a stack, deferred or not, descends from every tied task suspended beneath it and not in a barrier (section 2.7.1 of the OpenMP API 3.0) |
| TaskRuns.FetchedTaskAllowed | libopenmp-OpenUH/libopenmp_OpenUH_new/omp_task_pool.c:218-342 | a task returned by remove_task_from_pool may run on top of everything the thread has suspended |
| TaskRuns.CountersExact | libopenmp-OpenUH/libopenmp_OpenUH_new/omp_task_pool.c:185-192 | in every reachable state the three counters are exact |
| TaskRuns.BarrierHolds | libopenmp-OpenUH/libopenmp_OpenUH_new/omp_thread.h:321-393 | no thread leaves episode e of the draining barrier before every thread has entered it |
| TaskRuns.BarrierCompletesTasks | libopenmp-OpenUH/libopenmp_OpenUH_new/omp_thread.h:341-372 | once a thread has seen everybody in and nothing pending, that stays so until the flag toggles, and by then every deferred task has finished (section 2.8.3) |
| TaskRuns.NoDeadlock | libopenmp-OpenUH/libopenmp_OpenUH_new/omp_task.c:182-264 | in every reachable state some thread is not stuck in taskwait, task exit or the barrier |
| TaskProgress.NotStuckAdvances | libopenmp-OpenUH/libopenmp_OpenUH_new/omp_task.c:182-264 | a thread inside a call that is not stuck gets further, or some task does, within four steps of its own |
| TaskLives.NextLives | libopenmp-OpenUH/libopenmp_OpenUH_new/omp_task.c:91-264 | every action takes every task at most one stage further in its life (created, queued or run at once, running, counted out, left, done), and none goes back; new tasks are children of the code running on top of the acting thread |
| TaskLives.NextStacks | libopenmp-OpenUH/libopenmp_OpenUH_new/omp_task.c:266-308 | a task leaves a stack only by returning from the top at the end of its exit, and all beneath the top and on other stacks stays as it is |
| TaskCalls.WaitWaits | libopenmp-OpenUH/libopenmp_OpenUH_new/omp_task.c:182-209 | taskwait waits: under every schedule the task that called it is still in it until every deferred child it had at the call has left it |
| TaskCalls.ExitWaits | libopenmp-OpenUH/libopenmp_OpenUH_new/omp_task.c:211-264 | a task that exits stays in its exit until none of the children that block it is unfinished |
| TaskCalls.RunsOnce | libopenmp-OpenUH/libopenmp_OpenUH_new/omp_task.c:111-178 | in every run each explicit task is put on a stack exactly once, or not yet if it is still being created or queued |
| TaskCalls.BarrierPasses | libopenmp-OpenUH/libopenmp_OpenUH_new/omp_thread.h:321-393 | a barrier call under every schedule is still in the barrier, or has left exactly that one |
| TaskQueues.QueuesInOrder | libopenmp-OpenUH/libopenmp_OpenUH_new/omp_task_pool.c:193-201 | in every reachable state each queue is within its capacity and ordered by age, the oldest task at the head |
| TaskQueues.OwnYoungestFirst | libopenmp-OpenUH/libopenmp_OpenUH_new/omp_task_pool.c:234-237 | a thread that looks for work and has some of its own runs the youngest of it |
| TaskQueues.OldestStolenInBarrier | libopenmp-OpenUH/libopenmp_OpenUH_new/omp_task_pool.c:285-327 | one that has none steals the oldest of another's exactly when it looks from inside the barrier |
| TaskQueues.CreatedIsPut | libopenmp-OpenUH/libopenmp_OpenUH_new/omp_task.c:135-140 | a deferred task becomes the youngest of its creator's queue, or, if that is full, runs at once on top of its creator |
| DisseminationBarrier.Log2TeamSize | libopenmp-OpenUH/libopenmp_OpenUH_new/omp_thread.c:1183-1184 | the number of rounds is the least l with 2^l >= team size |
| DisseminationBarrier.CreateNodes | libopenmp-OpenUH/libopenmp_OpenUH_new/omp_xbarrier.c:162-171 | row j of thread i points at row j of thread i + 2^j mod n, all flags down |
| DisseminationBarrier.BarrierHolds | libopenmp-OpenUH/libopenmp_OpenUH_new/omp_xbarrier.c:332-361 | for every team size and any number of episodes nobody leaves episode e before all have entered it |
| DisseminationBarrier.PassDoublesKnowledge | libopenmp-OpenUH/libopenmp_OpenUH_new/omp_xbarrier.c:349-356 | passing a round doubles the number of predecessors known to have arrived |
| DisseminationBarrier.RoundKnowledge | libopenmp-OpenUH/libopenmp_OpenUH_new/omp_xbarrier.c:349-356 | after round r thread i knows of itself and its 2^(r+1) - 1 predecessors |
| DisseminationBarrier.NoSignalLost | libopenmp-OpenUH/libopenmp_OpenUH_new/omp_xbarrier.c:350-360 | a flag is raised again only after its reader has left the episode of the last raise, and is up exactly when raised in the reader's episode |
| DisseminationBarrier.SlowestCanStep | libopenmp-OpenUH/libopenmp_OpenUH_new/omp_xbarrier.c:349-356 | no deadlock: a thread that nobody is behind can always step |
| DisseminationBarrier.AccessesPerBarrier | libopenmp-OpenUH/libopenmp_OpenUH_new/omp_xbarrier.c:332-361 | nobody skips an access: a thread that has left e barriers has raised and awaited a flag in every round of each of them |
| TreeBarrier.ArrivalReachesOnce | libopenmp-OpenUH/libopenmp_OpenUH_new/omp_xbarrier.c:245-252 | the 4-ary tree reaches every thread but the root from exactly one place |
| TreeBarrier.WakeupReachesOnce | libopenmp-OpenUH/libopenmp_OpenUH_new/omp_xbarrier.c:254-260 | the binary wakeup tree does too |
| TreeBarrier.RootAboveAll | libopenmp-OpenUH/libopenmp_OpenUH_new/omp_xbarrier.c:245-260 | the root is above every thread in both trees |
| TreeBarrier.TreeNode.constructor | libopenmp-OpenUH/libopenmp_OpenUH_new/omp_xbarrier.c:230-265 | a thread lays out its node with its parent's byte, its wakeup children and its arrival children |
| TreeBarrier.NextInv | libopenmp-OpenUH/libopenmp_OpenUH_new/omp_xbarrier.c:403-431 | every access of every thread keeps the barrier's invariant |
| TreeBarrier.BarrierHolds | libopenmp-OpenUH/libopenmp_OpenUH_new/omp_xbarrier.c:403-431 | for every team size and any number of episodes nobody leaves episode e before all have entered it |
| TreeBarrier.ArrivalsNeverLost | libopenmp-OpenUH/libopenmp_OpenUH_new/omp_xbarrier.c:418-423 | a parent re-arms childnotready before any child clears it again, and re-arming never wipes out an arrival |
| TreeBarrier.SomeoneCanStep | libopenmp-OpenUH/libopenmp_OpenUH_new/omp_xbarrier.c:418-428 | no deadlock |
| TreeBarrier.AccessesPerBarrier | libopenmp-OpenUH/libopenmp_OpenUH_new/omp_xbarrier.c:403-431 | nobody skips an access: seven steps for each barrier left, six for the root |
| TournamentBarrier.EveryoneLosesOnce | libopenmp-OpenUH/libopenmp_OpenUH_new/omp_xbarrier.c:282-298 | each nonzero thread is LOSER in exactly the round of its lowest set bit, against a WINNER or CHAMPION, WINNER or NOOP before and DROPOUT after |
| TournamentBarrier.CreateRounds | libopenmp-OpenUH/libopenmp_OpenUH_new/omp_xbarrier.c:267-305 | the initialisation computes exactly those roles and opponents |
| TournamentBarrier.RoundDoublesCover | libopenmp-OpenUH/libopenmp_OpenUH_new/omp_xbarrier.c:385-389 | winning a round doubles the threads a thread answers for |
| TournamentBarrier.NextInv | libopenmp-OpenUH/libopenmp_OpenUH_new/omp_xbarrier.c:365-401 | every access of every thread keeps the barrier's invariant |
| TournamentBarrier.BarrierHolds | libopenmp-OpenUH/libopenmp_OpenUH_new/omp_xbarrier.c:365-401 | for every team size from 2 and any number of episodes nobody leaves episode e before all have entered it |
| TournamentBarrier.NeverWalksPast | libopenmp-OpenUH/libopenmp_OpenUH_new/omp_xbarrier.c:377-399 | no thread walks past its rounds array or meets a DROPOUT round |
| TournamentBarrier.SomeoneCanStep | libopenmp-OpenUH/libopenmp_OpenUH_new/omp_xbarrier.c:377-399 | no deadlock |
| TournamentBarrier.AccessesPerBarrier | libopenmp-OpenUH/libopenmp_OpenUH_new/omp_xbarrier.c:365-401 | nobody skips a round: a thread goes through every round up to the one it loses, the champion through all, in each barrier left |
| ForkJoin.NextInv | libopenmp-OpenUH/libopenmp_OpenUH_new/omp_thread.c:851-903 | every access, lock operation, wait and wakeup of master and slaves keeps the invariant of fork and join |
| ForkJoin.EachRunsOnce | libopenmp-OpenUH/libopenmp_OpenUH_new/omp_thread.c:1009-1063 | every member runs each fork's micro task exactly once, in order |
| ForkJoin.JoinWaitsForAll | libopenmp-OpenUH/libopenmp_OpenUH_new/omp_thread.c:851-892 | the master passes the join only after every member has left the region and every deferred task has exited |
| ForkJoin.NoLostWakeup | libopenmp-OpenUH/libopenmp_OpenUH_new/omp_thread.c:1009-1018 | a slave asleep on new_task has missed no fork, and a master asleep on exit_count has somebody to wait for, unless the wakeup is still to come |
| ForkJoin.NoDeadlock | libopenmp-OpenUH/libopenmp_OpenUH_new/omp_thread.c:1611-1643 | some thread can always bring the region forward, or the master may fork |
| ForkJoin.EntriesCleared | libopenmp-OpenUH/libopenmp_OpenUH_new/omp_thread.c:1053-1063 | back in the serial part after a region, every slave's entry is NULL again |
| ForkJoinProgress.StageByStage | libopenmp-OpenUH/libopenmp_OpenUH_new/omp_thread.c:1009-1063 | no member skips a stage of a region: entering, running its micro task, arriving, leaving |
| ForkJoinProgress.NotStuckGains | libopenmp-OpenUH/libopenmp_OpenUH_new/omp_thread.c:1611-1643 | a thread that is not stuck comes further in the region, or a task is taken or finished, by at most three actions of its own |
| ForkJoinProgress.PatientSleeps | libopenmp-OpenUH/libopenmp_OpenUH_new/omp_thread.c:1009-1018 | who has spun long enough for nothing falls asleep on its condition with no lock held, and a wakeup makes it look again |
| ForkJoinProgress.JoinFinishesTasks | libopenmp-OpenUH/libopenmp_OpenUH_new/omp_thread.c:851-892 | at every join all tasks created so far have been finished |
| NestLock.NextInv | libopenmp-OpenUH/libopenmp_OpenUH_new/omp_lock.c:146-179 | every access and lock operation of lock, test and unlock keeps the invariant |
| NestLock.AtMostOneOwner | libopenmp-OpenUH/libopenmp_OpenUH_new/omp_lock.c:146-179 | at most one thread owns the lock (section 3.3) |
| NestLock.CountIsDepth | libopenmp-OpenUH/libopenmp_OpenUH_new/omp_lock.c:252-277 | count is the owner's nesting depth, and a successful test returns it |
| NestLock.LockReturns | libopenmp-OpenUH/libopenmp_OpenUH_new/omp_lock.c:146-179 | when a lock call is over its thread owns the lock with one level more, and count is its depth |
| NestLock.TestReturns | libopenmp-OpenUH/libopenmp_OpenUH_new/omp_lock.c:252-277 | when a test is over its thread has one level more and the new depth for an answer, or as many as before and 0 |
| NestLock.UnlockReturns | libopenmp-OpenUH/libopenmp_OpenUH_new/omp_lock.c:217-228 | when an owner's unlock is over its thread has one level less |
| NestLock.CallsProgress | libopenmp-OpenUH/libopenmp_OpenUH_new/omp_lock.c:146-277 | every unblocked step of a call brings it nearer to its end, at most nine of them |
| NestLock.CountIsZeroInside | libopenmp-OpenUH/libopenmp_OpenUH_new/omp_lock.c:174-176 | whoever comes in through `wait` finds count == 0, as the comment there asserts |
| NestLock.NeverRetries | libopenmp-OpenUH/libopenmp_OpenUH_new/omp_lock.c:158-171 | the branches that start over are unreachable in spite of the unlocked first read |
| NestLock.TestFailsOnlyWhenHeld | libopenmp-OpenUH/libopenmp_OpenUH_new/omp_lock.c:252-277 | a test fails only while another thread holds `wait` |
| NestLock.NoDeadlock | libopenmp-OpenUH/libopenmp_OpenUH_new/omp_lock.c:217-228 | a call in progress can step, or another can, or the owner is outside any call |
| LoopSpace.WholeLoop | libopenmp-OpenUH/libopenmp_OpenUH_new/omp_runtime.c:141-142 | the trip count computed from the bounds is the number of iterations, in either direction |
| LoopSpace.ClippedChunk | libopenmp-OpenUH/libopenmp_OpenUH_new/omp_runtime.c:58-73 | a chunk clipped by the caller is exactly the part of it inside the loop |
| LoopSpace.PiecesMakeWhole | libopenmp-OpenUH/libopenmp_OpenUH_new/omp_runtime.c:138-168 | ranges between ascending cuts make up the loop, each iteration once and in order |
| StaticSchedule.StaticEvenInit | libopenmp-OpenUH/libopenmp_OpenUH_new/omp_runtime.c:138-155 | a thread's block is its share, as many iterations as the trip count divided by the team, rounded up; of a loop without iterations it is empty, even where its size comes out negative |
| StaticSchedule.ShareIsLeast | libopenmp-OpenUH/libopenmp_OpenUH_new/omp_runtime.c:141-145 | the block size is the least with which the team's blocks cover the loop |
| StaticSchedule.CompiledStaticEven | libopenmp-OpenUH/libopenmp_OpenUH_new/omp_runtime.c:138-155 | clipped and run, a thread does the iterations between its two cuts |
| StaticSchedule.RuntimeStaticEven | libopenmp-OpenUH/libopenmp_OpenUH_new/omp_runtime.c:541-576 | the path through schedule_next gives it the same iterations |
| StaticSchedule.StaticEvenCovers | libopenmp-OpenUH/libopenmp_OpenUH_new/omp_runtime.c:138-155 | the threads' clipped blocks, in thread order, are the loop, empty loops included |
| StaticSchedule.CompiledStatic | libopenmp-OpenUH/libopenmp_OpenUH_new/omp_runtime.c:156-168 | a thread does its chunks of the deal, in order, until the loop ends |
| StaticSchedule.NextStatic | libopenmp-OpenUH/libopenmp_OpenUH_new/omp_runtime.c:577-615 | schedule_next grants the thread's k-th chunk exactly when it begins below the trip count, that is, in a loop with iterations, when its first iteration is inside the loop |
| StaticSchedule.RuntimeStatic | libopenmp-OpenUH/libopenmp_OpenUH_new/omp_runtime.c:577-615 | the path selected at run time hands each thread the same iterations as the compiled path |
| StaticSchedule.StaticCovers | libopenmp-OpenUH/libopenmp_OpenUH_new/omp_runtime.c:156-168 | every iteration is done by exactly one thread, the one whose turn its chunk is |
| StaticSchedule.DealtInOrder | libopenmp-OpenUH/libopenmp_OpenUH_new/omp_runtime.c:156-168 | each thread goes through its share in loop order, nothing twice and nothing outside the loop |
| StaticSchedule.BalancedInit | libopenmp-OpenUH/omp_rtl.c:1560-1586 | a thread's clipped block lies between its two balanced cuts |
| StaticSchedule.BalancedCovers | libopenmp-OpenUH/omp_rtl.c:1560-1586 | the balanced blocks, in thread order, are the loop, empty or not (positive increments) |
| StaticSchedule.BalancedWithinOne | libopenmp-OpenUH/omp_rtl.c:1565-1576 | no two threads' shares differ by more than one iteration |
| DynamicSchedule.Team.ScheduleNext | libopenmp-OpenUH/libopenmp_OpenUH_new/omp_runtime.c:616-680 | whichever thread calls, the k-th grant is the k-th range of the plan, and a call is refused exactly when the loop has ended; every call is refused when the loop has no iterations |
| DynamicSchedule.GrantClipped | libopenmp-OpenUH/libopenmp_OpenUH_new/omp_runtime.c:616-680 | clipped, the k-th grant is the iterations between cuts k and k + 1 |
| DynamicSchedule.GrantsCover | libopenmp-OpenUH/libopenmp_OpenUH_new/omp_runtime.c:616-680 | the clipped grants, in the order granted, are the loop, empty or not: consecutive, disjoint and complete |
| DynamicSchedule.CutsFinite | libopenmp-OpenUH/libopenmp_OpenUH_new/omp_runtime.c:616-680 | there are at most as many grants as iterations |
| DynamicSchedule.GrantLength | libopenmp-OpenUH/libopenmp_OpenUH_new/omp_runtime.c:634-640 | a dynamic grant is as long as the chunk; a guided one is what is left divided by twice the team (by the team where ordered), rounded down, but never less than the chunk |
| DynamicSchedule.SizesNeverIncrease | libopenmp-OpenUH/libopenmp_OpenUH_new/omp_runtime.c:634-640 | the sizes asked for never increase |
| OrderedLoop.NextInv | libopenmp-OpenUH/libopenmp_OpenUH_new/omp_runtime.c:1672-1727 | every step of schedule_next, ordered and end_ordered keeps the invariant |
| OrderedLoop.SequentialOrder | libopenmp-OpenUH/libopenmp_OpenUH_new/omp_runtime.c:1672-1727 | under every interleaving the ordered regions run in iteration order, each once (section 2.8.7) |
| OrderedLoop.OneAtATime | libopenmp-OpenUH/libopenmp_OpenUH_new/omp_runtime.c:1690-1696 | they run one at a time |
| OrderedLoop.AllDoneMeansAll | libopenmp-OpenUH/libopenmp_OpenUH_new/omp_runtime.c:681-836 | when every thread has run out of chunks every iteration's region has run |
| OrderedLoop.SomeoneCanStep | libopenmp-OpenUH/libopenmp_OpenUH_new/omp_runtime.c:1672-1727 | no deadlock, although the last chunk's count is never used up when the loop ends inside it |
| OrderedLoop.ValidPlanRunsRight | libopenmp-OpenUH/libopenmp_OpenUH_new/omp_runtime.c:1672-1727 | every run of a valid plan is in order, complete at the end and without deadlock before it |
| OrderedSteps.RunsEnd | libopenmp-OpenUH/libopenmp_OpenUH_new/omp_runtime.c:1672-1727 | every run over a valid plan does a bounded number of steps, and another is possible until every thread has finished |
| OrderedSteps.StepsAtTheEnd | libopenmp-OpenUH/libopenmp_OpenUH_new/omp_runtime.c:1672-1727 | a run that is over has done four steps for every iteration, two for every chunk fetched and one for every thread: nobody skips one |
| OrderedLoop.DynamicPlan | libopenmp-OpenUH/libopenmp_OpenUH_new/omp_runtime.c:755-836 | the grants of ordered dynamic and guided schedules, clipped or not, are a plan for an ordered loop: they follow one another, none is empty before clipping, and they reach the end |
| OrderedLoop.OnlyLastIsShort | libopenmp-OpenUH/libopenmp_OpenUH_new/omp_runtime.c:681-836 | in any plan all chunks before the last that has iterations are whole |
| OrderedLoop.StaticPlanValid | libopenmp-OpenUH/libopenmp_OpenUH_new/omp_runtime.c:716-754 | the same for ordered static, the chunks granted being those that begin below the trip count |
| OrderedLoop.StaticEvenPlan | libopenmp-OpenUH/libopenmp_OpenUH_new/omp_runtime.c:681-715 | the same for ordered static-even, with the blocks that are granted although they begin beyond the loop |
| OrderedLoop.EmptyFirstChunk | libopenmp-OpenUH/libopenmp_OpenUH_new/omp_runtime.c:1672-1727 | if the first chunk is empty no ordered region ever runs |
| OrderedLoop.FirstEmptyDeadlocks | libopenmp-OpenUH/libopenmp_OpenUH_new/omp_runtime.c:1672-1727 | if moreover every thread has one chunk and there is something to do, some run deadlocks |
| CollapsedLoop.LoopInfoInit | libopenmp-OpenUH/libopenmp_OpenUH_new/omp_runtime.c:1223-1284 | computes the lengths of all levels, in the words the code computes them in, and their product; a level counted right gets its number of iterations |
| CollapsedLoop.LengthRightIff | libopenmp-OpenUH/libopenmp_OpenUH_new/omp_runtime.c:1243-1279 | a level's length is its number of iterations if and only if it is a 64-bit level, or its bounds have the same sign, or it is one of the two empty unit loops next to zero whose count wraps to 0 |
| CollapsedLoop.MinusFiveToFive | libopenmp-OpenUH/libopenmp_OpenUH_new/omp_runtime.c:1262-1279 | a 32-bit level from -5 to 5 is counted as empty |
| CollapsedLoop.FiveToMinusFive | libopenmp-OpenUH/libopenmp_OpenUH_new/omp_runtime.c:1262-1279 | the empty 32-bit level from 5 to -5 is counted as 4294967287 iterations |
| CollapsedLoop.DigitsInNest | libopenmp-OpenUH/libopenmp_OpenUH_new/omp_runtime.c:1637-1641 | taking an index below the iteration count apart gives a place of the nest |
| CollapsedLoop.IndexOfDigits | libopenmp-OpenUH/libopenmp_OpenUH_new/omp_runtime.c:1637-1641 | decomposing a linear index and composing it again gives the index back |
| CollapsedLoop.DigitsOfIndex | libopenmp-OpenUH/libopenmp_OpenUH_new/omp_runtime.c:1637-1641 | composing a place of the nest and decomposing it gives the place back |
| CollapsedLoop.IndexFollowsNest | libopenmp-OpenUH/libopenmp_OpenUH_new/omp_runtime.c:1637-1641 | the linear index follows the order of the nested loops |
| CollapsedLoop.RangeBounds | libopenmp-OpenUH/libopenmp_OpenUH_new/omp_runtime.c:1637-1651 | for each level the bounds handed out are the values of its variable at the digits of both ends: the lower bound and digit times the increment, which is the loop statement's own value wherever the level has an iteration of that number |
| CollapsedLoop.FullLoopBounds | libopenmp-OpenUH/libopenmp_OpenUH_new/omp_runtime.c:1450-1462 | the bounds of the whole nest: the first value of every level, and for the outermost one past its last; without empty levels they are those of decomposing 0 and the iteration count |
| CollapsedLoop.EvenRange | libopenmp-OpenUH/libopenmp_OpenUH_new/omp_runtime.c:1467-1483 | a thread's even range lies between its two starts, and is reported empty when it is |
| CollapsedLoop.EvenPartition | libopenmp-OpenUH/libopenmp_OpenUH_new/omp_runtime.c:1475-1483 | the even ranges make up the nest, sizes differing by at most one |
| CollapsedLoop.StaticRange | libopenmp-OpenUH/libopenmp_OpenUH_new/omp_runtime.c:1484-1500 | a thread's k-th range is its k-th chunk, clipped |
| CollapsedLoop.StaticPartition | libopenmp-OpenUH/libopenmp_OpenUH_new/omp_runtime.c:1484-1500 | index x is in thread tid's k-th static range if and only if its chunk is the one dealt to tid in round k: every iteration in exactly one range |
| CollapsedLoop.SharedRange | libopenmp-OpenUH/libopenmp_OpenUH_new/omp_runtime.c:1502-1541 | a dynamic or guided range is the next of the plan, clipped |
| CollapsedLoop.SharedPartition | libopenmp-OpenUH/libopenmp_OpenUH_new/omp_runtime.c:1502-1541 | the dynamic or guided ranges make up the nest, empty or not |
| CollapsedLoop.TooFewIterationsStall | libopenmp-OpenUH/libopenmp_OpenUH_new/omp_runtime.c:1543-1563 | with fewer iterations than threads, but some, no ordered region of an ordered static-even loop ever runs |
| CollapsedLoop.EvenOrderedRightIff | libopenmp-OpenUH/libopenmp_OpenUH_new/omp_runtime.c:1543-1563 | every run of an ordered static-even loop is in order, complete and without deadlock if and only if there are no iterations or at least as many as threads |
| CollapsedLoop.OrderedPlans | libopenmp-OpenUH/libopenmp_OpenUH_new/omp_runtime.c:1565-1630 | under ordered static, dynamic and guided schedules the clipped ranges, counted as they are, are a plan for an ordered loop |
| CollapsedLoop.CastRestores | libopenmp-OpenUH/libopenmp_OpenUH_new/omp_runtime.c:1637-1648 | the final cast undoes the unsigned reading of a 32-bit level's bounds |
| CollapsedLoop.LevelValueIs | libopenmp-OpenUH/libopenmp_OpenUH_new/omp_runtime.c:1637-1648 | what is handed out for a digit is the value of the level's variable there, for 64-bit and 32-bit levels alike |
| Crc32.TableRight | MCA-2.0.3/common/mca_utils.c:151-187 | every entry of the table is its index divided bit by bit through the polynomial |
| Crc32.UpdateByte | MCA-2.0.3/common/mca_utils.c:195-197 | the table-driven step is the bit-at-a-time one |
| Crc32.ComputeBuf | MCA-2.0.3/common/mca_utils.c:148-200 | the loop computes the bit-at-a-time CRC of the buffer |
| Crc32.Accumulates | MCA-2.0.3/common/mca_utils.c:133-146 | feeding one piece's result into the next gives the CRC of the concatenation, for every split |
| Crc32.OwnCrcResidue | MCA-2.0.3/common/mca_utils.c:190-200 | the CRC of any buffer followed by the four bytes of its own CRC, lowest first, is the constant 0x2144DF1C |
| Crc32.CheckValue | MCA-2.0.3/common/mca_utils.c:148-200 | the CRC of the bytes of "123456789" is 0xCBF43926 |
| Crc32.FourBytesNoticed | MCA-2.0.3/common/mca_utils.c:190-200 | any change within four consecutive bytes always changes the result |
| Crc32.SingleByteNoticed | MCA-2.0.3/common/mca_utils.c:190-200 | changing any single byte always changes the result |

## Left out

- LocklessDeque.Linearizable: refused puts and the thieves' NULL answers are no operations of its run, because a thief may return NULL, and a put be refused, when at no single moment the deque was empty or full; `PutReturns` and `StealReturns` say when they happen.
* A thread that sees the flag toggle while it spins leaves the draining barrier with its task's state still "in barrier" (the `return` in the spin loop of `__ompc_barrier_wait`); the model sets it to running, as the other ways out do.  The state is overwritten before it is next read.
* Untied tasks, task cutoffs, task deletion and first-private data.
* The order in which a thief tries its victims: any other thread may be the victim of any attempt, and the random choice is not modelled.
* In the task scheduler finding the own queue empty and stealing are one step; the own queue stays empty in between because only its owner adds to it.
* Condition-variable waits in the draining barriers (omp_thread.h:344-352, omp_thread.c:860-868) are spins in the model; those on `new_task` and `exit_count` are modelled in full.  The wait of an ordered region is one step.
* The task queues inside the task scheduler are atomic sequences; the deques that implement them are verified separately.
* A changing team size, `__ompc_expand_level_1_team`, nested teams, and re-initialising the tournament barrier.
* The binary and simple barriers of omp_xbarrier.c:309-330 and `__ompc_barrier_wait_select`.
* Fixed-width integers: indices, counters and iterations are unbounded, except for 32-bit collapsed levels, whose bounds and lengths are unsigned 32-bit words, and the words of the CRC.  In the lock-free deque the wrap of the 32-bit index agrees with the remainder only for power-of-two capacities.
* The CRC register is 32 bits wide; where `unsigned long` is wider its upper half stays zero.
* The float trip flag of dynamic and guided loops is the sign of (upper - lower) / incr.
* Weak memory, real time, and fairness: the progress results say that some thread can step, not which one will.
* Sequential mode and teams of one (omp_runtime.c:111-134, 490-540).
* The balanced split of omp_rtl.c for negative increments, where its rounding is not the ceiling.
* Multi-producer use of `__ompc_queue_cfifo_dyn_array_put` (omp_queue.c:626-657), which compares with a head read before locking.
* A transfer's destination is its thread's own queue: the model keeps the items moved, `ArrayQueue.Queue.CfifoTransferChunk` where they lie.
* steal_head and steal_tail of the list queue, which are its get_head and get_tail under a trylock.
* The initialisation race of `__ompc_scheduler_init_4` and `nowait` overlap of scheduled loops.
* Thread creation, affinity, the environment, callbacks and the collector interface; MRAPI, MCAPI, MTAPI and EMBB wrappers; the shared-memory allocator.

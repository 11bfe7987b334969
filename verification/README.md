# Verified models of the operating-systems labs

Four programs of the repository change shared state step by step under concurrency. This project
models them in Dafny and proves what they are for. `dafny verify dfyconfig.toml` checks all of it.

**lab6, the parallel external sort** (`IndexRecords`, `Segments`, `ThreadBarrier`, `SortThreads`,
`RunMerge`, `MergeThreads`, `MergeBlocks`, `MergeRounds`, `PortionSort`, `ExternalMerge`, `SortFile`). A
file is a header, an array of records and the bytes left over. `SortThreads` and `MergeThreads` are step
relations of any number of threads: claim under the mutex, work on the claimed records one at a time
(inside `qsort` a thread may write anything to its block), wait at the barrier. `PortionSort.Sorter`
holds the globals of `sort_index.c`; its methods run the threads under an arbitrary scheduler and are
proved to take only steps of those relations; a thread may lose its turn inside `qsort` too. The
result is carried from one record move to the whole of `main`. The key notion is `StableSortOf`:
sorted, and for each key the records with it in the same order as before. It composes over
concatenation and has at most one result, so everything after block sorting is a function of the
block-sorted file, whatever the schedule and the number of threads.

The checks of `main` let a thread count of 0 or less through. If there is a portion to process and
it passes its own checks, `pthread_barrier_init` then fails, its result is ignored, and the barrier
that was never initialised is destroyed, which is undefined. `SortFile.SortIndexFile` says exactly
when this is reached, and has it as an outcome of its own (`BadBarrier`), of which only the file up to
that point is described. A memory size of 0 passes the page-size check and ends in a division by zero.
In all other cases the run is refused or ends with the file sorted; a refusal after the first portion
has passed leaves the portions before the last one sorted (`GivenUp`), any other leaves the file alone.

**lab7, the record editor** (`EditorProtocol`, `RecordEditor`, `PutAmongOthers`). Any number of processes
fetch, edit and save records; a save locks, re-reads, compares, and writes or retries. A conflict
overwrites both `orig_rec` and `work_rec`, so the retry writes back what it has just read: no update is
lost, but the edit of a conflicted put is dropped and the put still reports success (`PutsChangeOnce`,
`EditStoredIff`, and runs in `EditCanBeLost` and `FailedReadLosesEdit`). The protocol and the loop of
`do_put` are proved to do the same, in both directions (`PutRefinesLoop`, `TurnsHappen`).

**lab4, the bounded buffer in shared memory** (`Messages`, `RingBuffer`, `BoundedBuffer`,
`BufferRounds`). Producers and consumers on three semaphores; the copy inside `enqueue` may be seen half
done, and a consumer reads its message from the slot one access at a time after it has given up the
queue. It always checks it, and finds it valid unless as many copies have begun meanwhile as the dequeue
left free slots (`DequeuedMessagePasses`); then the check may fail (`CheckCanFail`).

**lab5, the resizable bounded buffer** (`ResizableQueue`, `RingHistory`, `SemaphoreResize`,
`ConditionResize`). The ring is modelled with the head and tail arithmetic as written, which is a queue
only until the first pop that empties it. At one capacity `ResizableQueue` says exactly when
(`PopReturnsOldestIff`); a resize may move head further from where it should be or back (`ResizeSkews`).
The shortest failing cases are `SecondMessageLost`, `ReduceLosesNewest` and `ResizesMoveSkew`. What holds
of any pop in any state is in `RingHistory`. The two programs around it are modelled
with a mutex, and semaphores or condition variables with signals that choose any sleeper and spurious
wakeups. In 5.1 an `r` at capacity 1 keeps a permit for good (`LostCountsRefusals`), and when all are lost
and the parent waits in one more `r`, and only then, nothing works again (`StopsForGoodIff`). In 5.2 enough
`r` commands bring the capacity to 0, and one more stops every thread and the parent for good, which
nothing else does (`DeadReachable`, `StopsForGoodIff`).

`Runs` and `Totals` hold what the systems share: runs and what they reach, and sums over threads.
Reading order within a module: data, steps, invariant, one lemma for each kind of step, then the
statements over runs.

## Model

| member | source | states |
|---|---|---|
| `IndexRecords.CmpIndexOrders` | lab6/src/sort_index.c:36-45 | the comparison is a consistent order of the records by key, as qsort demands |
| `IndexRecords.PermutationIsSameMultiset` | lab6/src/sort_index.c:86 | the permutation used throughout is equality of multisets, and keeps the length |
| `IndexRecords.StableSortUnique` | lab6/src/sort_index.c:57-60 | a file has at most one stable sort, so two schedules that both end in one end in the same file |
| `IndexRecords.MergeSorts` | lab6/src/sort_index.c:47-68 | merging two sorted runs gives a sorted run |
| `IndexRecords.MergePermutes` | lab6/src/sort_index.c:47-68 | the merge holds every record of both runs as often as they do |
| `IndexRecords.MergeSortedOnlyIf` | lab6/src/sort_index.c:47-68 | the merge is sorted only if both runs were: merging repairs nothing |
| `IndexRecords.MergeWithKey` | lab6/src/sort_index.c:57-60 | within one key, the records of the left run come first, each run's in its own order |
| `IndexRecords.MergeOfStableSorts` | lab6/src/sort_index.c:57-60 | merging the stable sorts of two adjacent segments gives the stable sort of both together |
| `ThreadBarrier.OpensWhenAllArrived` | lab6/src/sort_index.c:73 | the barrier opens with the arrival of the last of its threads and not before |
| `SortThreads.StepInv` | lab6/src/sort_index.c:70-91 | every step of any thread, writes inside `qsort` included, keeps the invariant: blocks in work are held by one thread, claimed blocks not in work are sorted permutations, the others are untouched |
| `SortThreads.NoInterference` | lab6/src/sort_index.c:85-86 | a step of one thread leaves the block another thread works on as it is |
| `SortThreads.AllRunsSortBlocks` | lab6/src/sort_index.c:70-91 | in every run, when any thread has passed the second barrier, every block index has been handed out exactly once and in order, and each block is a sorted permutation of what it held |
| `SortThreads.SomeThreadCanStep` | lab6/src/sort_index.c:70-91 | no deadlock: until all threads have returned, some thread has a step and a state it leads to |
| `SortThreads.EveryStepProgresses` | lab6/src/sort_index.c:75-87 | every step, those inside a `qsort` that makes finitely many writes included, claims another block or shortens the work in hand, so every run ends |
| `MergeThreads.StepInv` | lab6/src/sort_index.c:93-112 | every step keeps the invariant, at the grain of one record: pairs in work are held by one thread, whose scratch buffer followed by the merge of what is left is the merge; finished pairs hold it; the rest is untouched |
| `MergeThreads.AllRunsMergePairs` | lab6/src/sort_index.c:93-112 | in every run, when any thread has passed the barrier, each even block index with a partner has been handed out exactly once, its pair holds the merge of what it held before the round, and an odd last block is untouched |
| `MergeThreads.SchedulesAgree` | lab6/src/sort_index.c:93-112 | schedule independence: two runs of a round on the same file, with any numbers of threads and any interleavings, end in the same file |
| `MergeThreads.SomeThreadCanStep` | lab6/src/sort_index.c:93-112 | no deadlock in a merge round: some thread has a step and a state it leads to |
| `MergeThreads.EveryStepProgresses` | lab6/src/sort_index.c:93-112 | every run of a merge round ends |
| `MergeBlocks.MergeInPlace` | lab6/src/sort_index.c:47-68 | the three loops and the copy back, in place: the two adjacent runs become their merge and nothing else changes |
| `MergeBlocks.CompareHeads` | lab6/src/sort_index.c:56-61 | the comparing loop stops with one run used up; the scratch array holds the beginning of the merge, which goes on with the merge of what is left |
| `RunMerge.RestIsMerge` | lab6/src/sort_index.c:56-65 | the invariant of the loops, record by record, holds of the functional merge of what is left of the runs |
| `MergeBlocks.QSort` | lab6/src/sort_index.c:86 | what the model assumes of a returning `qsort`: whatever it wrote meanwhile, a sorted permutation of what it was called on, the rest untouched, no stability |
| `MergeRounds.PowerOfTwoTest` | lab6/src/sort_index.c:305 | `blocks & (blocks - 1)` is zero for powers of two and no other positive number |
| `MergeRounds.RoundHalves` | lab6/src/sort_index.c:224-226 | after a round, half as many blocks of twice the size are each the stable sort of the same records of the block-sorted portion |
| `MergeRounds.BlocksPermute` | lab6/src/sort_index.c:70-91 | sorting every block permutes the portion |
| `PortionSort.Sorter.ThreadSortStep` | lab6/src/sort_index.c:70-91 | one turn of a sorting thread on the globals and the record array, which may end inside `qsort`, is a step of the relation and touches only the mapped portion |
| `PortionSort.Sorter.ThreadMergeStep` | lab6/src/sort_index.c:93-112 | the same for a merging thread |
| `PortionSort.Sorter.RunSortThreads` | lab6/src/sort_index.c:163-188 | under any schedule, turns of others inside a running `qsort` included, the threads sort every block of the portion |
| `PortionSort.Sorter.RunMergeThreads` | lab6/src/sort_index.c:195-220 | under any schedule the threads of one round merge every pair of blocks of the portion |
| `PortionSort.Sorter.RunMergeRounds` | lab6/src/sort_index.c:193-227 | from a power-of-two count of sorted blocks the rounds end with one block, the stable sort of the block-sorted portion |
| `PortionSort.Sorter.ProcessPortion` | lab6/src/sort_index.c:114-240 | refuses exactly the portions the checks refuse, and reaches the uninitialised barrier exactly on the others without a thread; otherwise the portion is the stable sort of its block-sorted form, nothing outside changes, and the block count is left at 1 for every later portion |
| `PortionSort.PortionSortedPermutes` | lab6/src/sort_index.c:163-227 | a processed portion is sorted and a permutation of what it was |
| `ExternalMerge.HalvedTabled` | lab6/src/sort_index.c:246-283 | after a pass the runs are still contiguous and cover the same records |
| `ExternalMerge.PassPermutes` | lab6/src/sort_index.c:246-283 | a pass permutes the file |
| `ExternalMerge.PassStable` | lab6/src/sort_index.c:246-283 | if each run is the stable sort of the same records of a reference file, so is each joined run after the pass |
| `ExternalMerge.PassAscending` | lab6/src/sort_index.c:246-283 | after a pass all runs are sorted exactly if all were before |
| `ExternalMerge.EntryWritten` | lab6/src/sort_index.c:248-280 | writing a new table entry never overwrites one that is still to be read |
| `ExternalMerge.MergePass` | lab6/src/sort_index.c:246-283 | the inner loop, in place on the table and the file: n entries become the ceil(n/2) of the halved table, and the file what the pass prescribes |
| `ExternalMerge.MergeRuns` | lab6/src/sort_index.c:242-286 | ends with one run: the stable sort of the reference file if each run was its part's, sorted exactly if each run was sorted, a permutation always |
| `SortFile.CeilingBound` | lab6/src/sort_index.c:338 | the run table has an entry for each portion of the data and no more |
| `SortFile.CountersTurn` | lab6/src/sort_index.c:347-363 | a turn of the portion loop writes inside the table, and refuses only files that the acceptance conditions exclude |
| `SortFile.RefusedTurn` | lab6/src/sort_index.c:347-357 | a turn refuses only the first portion or the last |
| `SortFile.SortPortions` | lab6/src/sort_index.c:347-364 | the portion loop succeeds exactly on the data the checks allow and with a thread for it, fills the table to its last entry, entry i being the i-th memsize bytes or what is left, and leaves contiguous sorted runs; when it gives up, all portions but the last are sorted if the first was accepted, none otherwise, and the records after them are as they were |
| `SortFile.SortIndexFile` | lab6/src/sort_index.c:288-380 | end to end: the exact condition of each outcome; the file is untouched when the arguments or the first portion are refused, by the division by zero and before the barrier fault; a later refusal leaves all portions but the last each the stable sort of its block-sorted form and the rest untouched; on success the file is sorted, the stable sort of the file with exactly the portions that memsize cuts block-sorted |
| `SortFile.NoThreadReachesBarrier` | lab6/src/sort_index.c:305-310 | arguments with thread count 0 and a file that pass every check before the barrier |
| `SortFile.TableAppend` | lab6/src/sort_index.c:347-363 | the entry a turn adds is that of the portion memsize cuts there |
| `EditorProtocol.NextInv` | lab7/src/editor.c:106-155 | every move of every process keeps the invariant on locks, file, log of writes and conflicts |
| `EditorProtocol.NoLostUpdate` | lab7/src/editor.c:117-154 | in every run the writes to a record form a chain, each based on the value it replaced, and the file holds the last, even if unlocked reads returned anything |
| `EditorProtocol.PutsChangeOnce` | lab7/src/editor.c:138-153 | a put writes at most once; it changes the record exactly if it met no conflict, and then stores the edit; after a conflict it rewrites what is there |
| `EditorProtocol.ConflictsBounded` | lab7/src/editor.c:117-145 | the conflicts since a fetch are at most the value-changing commits of others to the record since, plus the reads that were not of its value |
| `EditorProtocol.LockExcludes` | lab7/src/editor.c:128-151 | one process at a time is between lock and unlock of a record, and after a match the record still holds the compared value |
| `EditorProtocol.LeavingFreesLock` | lab7/src/editor.c:128-151 | a process that leaves or is killed while it holds a lock frees exactly that lock and changes no record |
| `EditorProtocol.ErrorsEndPut` | lab7/src/editor.c:121-150 | an error at any access, whoever holds which lock, ends the put, frees the record and keeps the edit |
| `EditorProtocol.SomePutGoesOn` | lab7/src/editor.c:117-154 | while some process is inside a put, one inside a put can go on without an error |
| `RecordEditor.PutEndsAtFirstMatch` | lab7/src/editor.c:117-154 | the loop goes on exactly until the record is unchanged between two lockings; a first match stores the edit, a later one what was found |
| `RecordEditor.EditStoredIff` | lab7/src/editor.c:138-153 | without errors the edit is stored exactly if the first comparison matched or the final value equals it already; success is reported either way |
| `RecordEditor.PutLeftAlone` | lab7/src/editor.c:106-155 | in the protocol, a put that finds the lock free and is left alone ends within eight moves in exactly the state that the loop's result gives |
| `RecordEditor.EditCanBeLost` | lab7/src/editor.c:138-153 | a run of two processes that fetch one record and save it in turn, in which the second put reports success and its edit is not stored |
| `RecordEditor.FailedReadLosesEdit` | lab7/src/editor.c:52-55 | a run of one process whose failed read of any record makes the put of its earlier edit a conflict, so that the edit is lost |
| `PutAmongOthers.PutRefinesLoop` | lab7/src/editor.c:106-155 | in every run a put that ends does what do_put does: nothing without work, only the flag without changes, else what its loop does with exactly the values it found under the lock and the error it met; its write is in the log exactly if it succeeds |
| `PutAmongOthers.TurnsHappen` | lab7/src/editor.c:117-154 | conversely, for any values and errors the loop can meet there are moves of the process and one other after which the put has ended as the loop does with them |
| `RecordEditor.Process.DoGet` | lab7/src/editor.c:43-104 | a bad number changes nothing, a failed read only `orig_rec`, a fetch sets all four variables |
| `RecordEditor.Process.DoPut` | lab7/src/editor.c:106-155 | the method on the four variables and the file does what the loop function says: nothing without work, only the flag without changes, and the error returns leave the flag set |
| `Messages.CalculateHash` | lab4/src/message.c:7-16 | the 16-bit accumulation equals the unbounded sum, which is at most 65280 |
| `Messages.GenerateMessage` | lab4/src/message.c:18-37 | for any random bytes the message passes the consumer's test; size 0 clears the data, otherwise bytes past the size keep their old value |
| `RingBuffer.EnqueueAppends` | lab4/src/ring_buffer.c:46-59 | enqueue appends to the contents or, when full, changes nothing, and keeps the counters consistent |
| `RingBuffer.DequeueTakesOldest` | lab4/src/ring_buffer.c:61-76 | dequeue takes the oldest message, which stays in the old head slot, or, when empty, nothing |
| `RingBuffer.SlotLifetime` | lab4/src/ring_buffer.c:46-76 | after a dequeue that leaves f free slots, the slot keeps the message through f-1 successful enqueues, whatever dequeues interleave, and the f-th writes exactly this slot |
| `RingBuffer.MessageQueue.Enqueue` | lab4/src/ring_buffer.c:46-59 | the in-place operation refines appending to a bounded queue |
| `RingBuffer.MessageQueue.Dequeue` | lab4/src/ring_buffer.c:61-76 | the in-place operation refines taking the oldest message and returns its slot |
| `BoundedBuffer.NextInv` | lab4/src/main.c:113-170 | every move of every process keeps the invariant on ring, permits and partial hashes |
| `BoundedBuffer.AccessExcludes` | lab4/src/main.c:120-127 | two processes are never both between the access wait and signal |
| `BoundedBuffer.PermitsConserved` | lab4/src/main.c:90-92 | the two counting semaphores and the permits in flight always add up to the queue size |
| `BoundedBuffer.NeverFullNorEmpty` | lab4/src/ring_buffer.c:48-67 | no process reaches the full or the empty branch |
| `BoundedBuffer.RingIsQueue` | lab4/src/ring_buffer.c:46-76 | in every reachable state the messages added are those removed, in order, followed by the contents of the ring |
| `BoundedBuffer.IntactMessagePasses` | lab4/src/main.c:152-162 | a consumer that compares hashes before its slot, item modulo the queue size, has begun to be overwritten reads its message there and finds the hashes equal |
| `BoundedBuffer.IntactForFreeSpace` | lab4/src/main.c:147-154 | the message a dequeue takes is intact exactly until the copy of the f-th enqueue begins, if the dequeue left f free slots |
| `BoundedBuffer.DequeuedMessagePasses` | lab4/src/main.c:147-162 | over a run: if fewer than f copies have begun between a dequeue that left f free slots and the consumer's comparison, the hashes are equal and the slot still holds the message dequeued |
| `BufferRounds.EveryMessageChecked` | lab4/src/main.c:152-162 | over runs: a consumer that has dequeued a message gets to the comparison of its hash before it is anywhere else, its loop head and its end included |
| `BufferRounds.DequeueIsChecked` | lab4/src/main.c:147-162 | the same from the state after any dequeue, which no consumer leaves without a message |
| `BufferRounds.EndsAtHeadOnly` | lab4/src/main.c:118-170 | a process can end with its next step exactly at its loop head, where it holds no permit |
| `BufferRounds.ProducerRound` | lab4/src/main.c:118-127 | a producer left alone with a permit adds one message and moves one permit in one turn of its loop |
| `BufferRounds.ConsumerRound` | lab4/src/main.c:142-162 | a consumer left alone with a permit takes the oldest message, moves one permit, and after 2 * size + 2 reads compares the message's own hash |
| `BufferRounds.AnyNumbers` | lab4/src/main.c:170-215 | runs with any numbers of producers and consumers |
| `BufferRounds.CheckCanFail` | lab4/src/main.c:147-162 | a run in which the f-th copy has begun and the consumer finds an invalid hash |
| `BoundedBuffer.SomeProcessCanMove` | lab4/src/main.c:113-170 | with a live producer and a live consumer some process can always move |
| `ResizableQueue.PushAppends` | lab5/5.1/src/queue.c:85-105 | on a state aligned as a queue, empty or not, push below capacity appends |
| `ResizableQueue.PopTakesOldest` | lab5/5.1/src/queue.c:107-125 | on an aligned state pop takes the oldest message; the state stays aligned exactly if the pop does not empty it or the capacity is 1 |
| `ResizableQueue.ExpandKeepsMessages` | lab5/5.1/src/queue.c:21-39 | expand keeps the sequence of an aligned state, wrapped or not |
| `ResizableQueue.ReduceKeepsMessages` | lab5/5.1/src/queue.c:41-68 | a reduce that shrinks keeps it exactly if head > tail or tail < max_len - 1; otherwise it cuts off the slot of the newest message |
| `ResizableQueue.MeantIff` | lab5/5.1/src/queue.c:21-125 | for each command on an aligned state, the exact condition under which the ring is aligned afterwards; under it the command does what it does to a bounded queue |
| `ResizableQueue.ActsAsBoundedQueue` | lab5/5.1/src/queue.c:21-125 | every sequence of pushes, pops, expands and reduces that keeps to the condition has the contents, capacity and output of a bounded queue |
| `ResizableQueue.ReduceUndoesExpand` | lab5/5.1/src/queue.c:21-68 | reduce after expand restores head, tail, len, capacity and every slot, in any state with indices in bounds |
| `ResizableQueue.BoundsKept` | lab5/5.2/src/queue.c:41-67 | push, pop and expand keep the indices in bounds; reduce does exactly under the same condition |
| `ResizableQueue.SkewCountsEmptyings` | lab5/5.1/src/queue.c:96-122 | at a fixed capacity head runs ahead of tail by the number of emptying pops, modulo the capacity, and by nothing else |
| `ResizableQueue.FifoUntilEmptied` | lab5/5.1/src/queue.c:85-125 | from the fresh queue the state is aligned, and a message pushed onto the empty queue goes where the next pop looks, exactly when that number is a multiple of the capacity |
| `ResizableQueue.AlignedMeansNoSkew` | lab5/5.1/src/queue.c:96-122 | a state with indices in bounds is that of a queue exactly if its skew is 0 |
| `ResizableQueue.ResizeSkews` | lab5/5.1/src/queue.c:21-68 | expand and reduce change the skew of any state, aligned or not, by one exactly if the slot added or dropped lies between the place where head should be and head |
| `ResizableQueue.ResizesMoveSkew` | lab5/5.1/src/queue.c:21-68 | after push and pop at capacity 3, expand makes the skew worse and reduce aligns the ring again |
| `ResizableQueue.HeadPastOldest` | lab5/5.1/src/queue.c:96-122 | in any state with a message, aligned or not, head is skew places past the slot of the oldest message |
| `ResizableQueue.PopReturnsOldestIff` | lab5/5.1/src/queue.c:85-125 | after any pushes and pops of distinct messages at one capacity, the next pop returns the message a bounded queue would exactly when the number of emptying pops is a multiple of the capacity |
| `ResizableQueue.SecondMessageLost` | lab5/5.1/src/queue.c:96-122 | push, pop, push at any capacity above 1: one message is counted and the next pop returns none |
| `ResizableQueue.ReduceLosesNewest` | lab5/5.1/src/queue.c:56-64 | fill, pop, reduce: the newest message is gone and tail is out of bounds |
| `RingHistory.PopReturnsLastPushed` | lab5/5.1/src/queue.c:21-125 | after any pushes, pops, expands and reduces that leave indices in bounds, aligned or not: a pop returns the last message pushed into the cell at head if it has not been popped since, else null |
| `RingHistory.NoMessageTwice` | lab5/5.1/src/queue.c:21-125 | if no message is pushed twice, no two pops return the same one and none returns one that was not pushed |
| `RingHistory.EndsMove` | lab5/5.1/src/queue.c:21-125 | in any state only a pop moves head and only a push onto a queue that is not empty moves tail, one cell on; a resize leaves both at their cells, but a reduce with head right behind tail drops tail's |
| `ResizableQueue.SizesOnly` | lab5/5.1/src/queue.c:21-125 | what the operations do to len and max_len does not depend on head, tail or the slots |
| `ResizableQueue.MessageQueue.Expand` | lab5/5.1/src/queue.c:21-39 | the in-place loop and realloc do what the value-level expand says |
| `ResizableQueue.MessageQueue.Reduce` | lab5/5.1/src/queue.c:41-68 | the same for reduce, whose least capacity is 1 in 5.1 and 0 in 5.2 |
| `ResizableQueue.MessageQueue.Push` | lab5/5.1/src/queue.c:85-105 | the same for push, null message and full queue included |
| `ResizableQueue.MessageQueue.Pop` | lab5/5.1/src/queue.c:107-125 | the same for pop, which may return an empty slot |
| `SemaphoreResize.NextInv` | lab5/5.1/src/main.c:78-127 | every move of threads and parent keeps the permit equations |
| `SemaphoreResize.PermitsConserved` | lab5/5.1/src/main.c:78-127 | free-space permits, messages, permits held or owed by threads and by the parent in e or r, and lost ones add up to max_len; item permits and those held or owed add up to len |
| `SemaphoreResize.GuardsAreDead` | lab5/5.1/src/queue.c:47-116 | push never finds the queue full, pop never finds it empty, reduce never meets len == max_len and gives up only at capacity 1 |
| `SemaphoreResize.CommandsCount` | lab5/5.1/src/main.c:345-359 | in every run the capacity is 10 plus the e commands minus the r commands except those that found it at 1, and len is pushes minus pops |
| `SemaphoreResize.NoReduceWithoutConsumer` | lab5/5.1/src/main.c:345-346 | until there is a consumer no r begins, none is refused, nothing is lost, and the capacity is 10 plus the e commands |
| `SemaphoreResize.CommandsTaken` | lab5/5.1/src/main.c:326-359 | at the prompt, whatever the threads are doing, e can be begun, r exactly if there is a consumer, a thread of a role exactly if there are fewer than 10 |
| `SemaphoreResize.ThreadsLimited` | lab5/5.1/src/main.c:138-186 | no role ever has more than 10 threads |
| `SemaphoreResize.LimitReached` | lab5/5.1/src/main.c:138-186 | a run with 10 of each |
| `SemaphoreResize.RoundAlone` | lab5/5.1/src/main.c:78-127 | a thread left alone with its permit does its round in five moves: one message pushed or popped, one permit moved |
| `SemaphoreResize.WholeE` | lab5/5.1/src/main.c:353-359 | a whole e adds one slot and one permit and nothing else |
| `SemaphoreResize.StuckIff` | lab5/5.1/src/main.c:78-127 | with a producer and a consumer, the threads are stuck exactly if every permit has been lost |
| `SemaphoreResize.LostCountsRefusals` | lab5/5.1/src/main.c:345-352 | the permits lost are exactly as many as the r commands executed at capacity 1 so far |
| `SemaphoreResize.LossNeedsLeast` | lab5/5.1/src/main.c:345-352 | no permit is lost before an r at capacity 1 |
| `SemaphoreResize.StuckReachable` | lab5/5.1/src/main.c:345-352 | a run of r commands that ends with a producer and a consumer stuck |
| `SemaphoreResize.WorksAgain` | lab5/5.1/src/main.c:78-127 | from any state with the invariant, a producer and a consumer, unless all permits are lost and the parent waits in r, moves without a new thread or r lead to a thread at the queue |
| `SemaphoreResize.StopsForGoodIff` | lab5/5.1/src/main.c:345-352 | so no continuation of a run has a thread at the queue exactly when all permits are lost and the parent waits in r |
| `SemaphoreResize.DeadEnd` | lab5/5.1/src/main.c:345-352 | in that state no move of any thread or of the parent is enabled |
| `SemaphoreResize.DeadReachable` | lab5/5.1/src/main.c:345-352 | a run of r commands that ends there |
| `ConditionResize.NextInv` | lab5/5.2/src/main.c:76-151 | every move, signals to any sleeper and spurious wakeups included, keeps the invariant |
| `ConditionResize.WakeupsAccounted` | lab5/5.2/src/main.c:85-96 | while someone sleeps for a free slot, the free slots are at most those awake for them plus signals owed; likewise for messages; and no operation runs when its condition fails |
| `ConditionResize.CommandsCount` | lab5/5.2/src/main.c:370-386 | in every run the capacity is 10 plus the e commands minus the r commands, and len is pushes minus pops |
| `ConditionResize.NoReduceWithoutConsumer` | lab5/5.2/src/main.c:370-371 | until there is a consumer no r begins and the capacity is 10 plus the e commands |
| `ConditionResize.CommandsTaken` | lab5/5.2/src/main.c:350-386 | at the prompt, whatever the threads are doing, e can be begun, r exactly if there is a consumer, a thread of a role exactly if there are fewer than 10 |
| `ConditionResize.ThreadsLimited` | lab5/5.2/src/main.c:157-205 | no role ever has more than 10 threads |
| `ConditionResize.LimitReached` | lab5/5.2/src/main.c:157-205 | a run with 10 of each |
| `ConditionResize.RoundAlone` | lab5/5.2/src/main.c:76-151 | a thread left alone that need not wait pushes or pops one message in five moves and wakes any one sleeper on the other condition variable |
| `ConditionResize.SleepsAlone` | lab5/5.2/src/main.c:85-89 | one that must wait sleeps and frees the mutex |
| `ConditionResize.SpuriousSleepsAgain` | lab5/5.2/src/main.c:85-89 | a spurious wakeup of a thread that must wait changes nothing |
| `ConditionResize.SpuriousParentSleepsAgain` | lab5/5.2/src/main.c:373-376 | nor does one of the parent in r |
| `ConditionResize.WholeE` | lab5/5.2/src/main.c:380-386 | a whole e adds one slot and wakes any one sleeper on free_space_cond |
| `ConditionResize.SomebodyProceeds` | lab5/5.2/src/main.c:76-151 | unless all threads sleep and the parent is at the prompt or asleep, someone can proceed without a spurious wakeup |
| `ConditionResize.AllSleepOnlyAtZero` | lab5/5.2/src/main.c:85-96 | with a producer and a consumer, all sleep at once only at capacity 0, and at any other someone can proceed |
| `ConditionResize.DeadForever` | lab5/5.2/src/main.c:370-379 | once the capacity is 0 and the parent waits in r, that is so in every later state of the run, and nothing is pushed, popped or signalled again |
| `ConditionResize.WorksAgain` | lab5/5.2/src/main.c:76-151 | from any other state with the invariant, a producer and a consumer, moves without a spurious wakeup, a new thread or an r lead to a thread at work |
| `ConditionResize.EveryScheduleWorks` | lab5/5.2/src/main.c:76-151 | whatever the schedule, from a state with a producer and a consumer moves without a new command or spurious wakeup can go on, but only a bounded number of them, before a thread is at work or the capacity is 0 |
| `ConditionResize.StopsForGoodIff` | lab5/5.2/src/main.c:370-379 | so no continuation of a run has a thread at work exactly when the capacity is 0 and the parent waits in r |
| `ConditionResize.DeadReachable` | lab5/5.2/src/main.c:370-379 | a run of r commands that ends there, everybody asleep |

## Left out

- Files as bytes in lab6: a file is a header, whole records and a count of trailing bytes; mapping, `msync`, page rounding, `open` and all system-call failures are not modelled, nor runs where `pthread_create` fails part-way.
- Numbers: NaN time marks (keys are reals, totally ordered) and `int` overflow in lab6; sizes are unbounded. An empty file counts as success, as where `malloc(0)` is not null.
- MergeBlocks.QSort: the inside of `qsort` is not modelled beyond arbitrary writes to its block, a number of them chosen at its call; the body here is one way to meet the assumed contract, and callers use the contract only.
- SortFile.SortIndexFile: the header is a field of its own that no code of the model writes, so that it stays the same holds by construction and says nothing of the byte offsets; what follows the destruction of an uninitialised barrier is not modelled.
- PortionSort.Sorter.ThreadSortStep: a claim under `g_block_mutex` is one step.
- MergeBlocks.CopyBack: `memcpy` writes all records at once here; in `MergeThreads`, where the scratch buffer is a sequence, it writes one at a time.
- RecordEditor.Process.DoGet: prompts and input parsing are left out; the edit is an arbitrary new record. Partial writes to the file and `do_list` are left out.
- RecordEditor.Process.DoPut: the other processes' commits to the record are an input, one value for each time the lock is granted. `F_GETLK` changes nothing and its failure is that of the lock.
- BoundedBuffer.Next: a semaphore wait interrupted by SIGUSR1 and SIGTERM are left out, so a process ends only at its loop head; the limit of 100 processes is not imposed; process lists and `kill_process` are left out.
- BoundedBuffer.Intact: what a consumer computes from a slot that is already being overwritten is arbitrary; only that its check may then fail is claimed (`BufferRounds.CheckCanFail`).
- ResizableQueue.MessageQueue.Push: operations require the indices they touch to exist; what C does beyond the array after a reduce that loses the slot of tail is not modelled. Freed and leaked messages are not tracked.
- SemaphoreResize.Next: thread closing and `pthread_cancel` are left out, in ConditionResize too, and both see only len and max_len of the queue (`ResizableQueue.SizesOnly`), since pushes and pops may go wrong at slot level as `ResizableQueue` describes.
- The directory, process, signal, timer, socket and access-manager labs (1, 2, 3, 8), the generators, viewers and print functions: easy logic around system calls.

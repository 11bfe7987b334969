/** The block-sort phase of process_portion: the threads that run thread_sort, as a step
    relation over the shared file, g_next_block and the barrier. Any number of threads, any
    interleaving; the critical section around g_next_block is one step, and a qsort at work
    may write anything into its block, any number of times, before it returns. */
module SortThreads {
  import opened IndexRecords
  import opened Segments
  import opened ThreadBarrier
  import opened Totals

  datatype Worker =
    | Starting
    | AtGate(ticket: nat)                          // first pthread_barrier_wait
    | Claiming
    | Sorting(block: nat, before: seq<Record>, writes: nat) // in qsort, called on `before`, with so many writes to go
    | AtExit(ticket: nat)                          // second pthread_barrier_wait
    | Returned

  // claims logs the block indices in the order they are handed out.
  datatype State = State(file: seq<Record>, next: nat, barrier: Barrier, workers: seq<Worker>, claims: seq<nat>)

  function Initial(file: seq<Record>, threads: nat): State {
    State(file, 0, Fresh(threads), seq(threads, _ => Starting), [])
  }

  // A thread waits only at a barrier that has not opened since it arrived.
  predicate Runnable(b: Barrier, w: Worker) {
    match w
    case AtGate(k) => b.Released(k)
    case AtExit(k) => b.Released(k)
    case Returned => false
    case _ => true
  }

  predicate CanStep(s: State, t: nat) {
    t < |s.workers| && Runnable(s.barrier, s.workers[t])
  }

  ghost predicate Step(size: nat, count: nat, s: State, t: nat, s': State) {
    CanStep(s, t) &&
    match s.workers[t]
    case Starting =>
      s' == s.(barrier := s.barrier.Arrive(t), workers := s.workers[t := AtGate(s.barrier.generation)])
    case AtGate(_) =>
      s' == s.(workers := s.workers[t := Claiming])
    case Claiming =>
      if s.next < count then
        t < |s'.workers| && s'.workers[t].Sorting? &&
        s' == s.(next := s.next + 1, claims := s.claims + [s.next],
                 workers := s.workers[t := Sorting(s.next, Block(s.file, s.next, size), s'.workers[t].writes)])
      else
        s' == s.(barrier := s.barrier.Arrive(t), workers := s.workers[t := AtExit(s.barrier.generation)])
    case Sorting(b, before, writes) =>
      SameOutside(s.file, s'.file, At(b, size), size) &&
      ((writes > 0 && s' == s.(file := s'.file, workers := s.workers[t := Sorting(b, before, writes - 1)])) ||
       (s' == s.(file := s'.file, workers := s.workers[t := Claiming]) &&
        SortedPermutationOf(before, Block(s'.file, b, size))))
    case AtExit(_) =>
      s' == s.(workers := s.workers[t := Returned])
    case Returned => false
  }

  predicate Holds(w: Worker, b: nat) {
    w.Sorting? && w.block == b
  }

  ghost predicate Held(s: State, b: nat) {
    exists t :: 0 <= t < |s.workers| && Holds(s.workers[t], b)
  }

  // What each program point guarantees.
  ghost predicate WorkerInv(size: nat, count: nat, orig: seq<Record>, s: State, t: nat)
    requires t < |s.workers|
  {
    var g := s.barrier.generation;
    match s.workers[t]
    case Starting => g == 0 && t !in s.barrier.arrived
    case AtGate(k) => k == 0 && g <= 1 && (t in s.barrier.arrived <==> g == 0)
    case Claiming => g == 1 && t !in s.barrier.arrived
    case Sorting(b, before, _) => g == 1 && t !in s.barrier.arrived && b < s.next && before == Block(orig, b, size)
    case AtExit(k) => k == 1 && 1 <= g && (t in s.barrier.arrived <==> g == 1) && s.next == count
    case Returned => g == 2 && s.next == count
  }

  ghost predicate BarrierInv(s: State) {
    && s.barrier.parties == |s.workers|
    && Below(s.barrier.arrived, |s.workers|)
    && (|s.workers| > 0 ==> |s.barrier.arrived| < |s.workers|)
    && s.barrier.generation <= 2
    && (s.barrier.generation == 0 ==> s.next == 0)
  }

  ghost predicate BlockInv(size: nat, orig: seq<Record>, s: State, b: nat) {
    if b < s.next then Held(s, b) || SortedPermutationOf(Block(orig, b, size), Block(s.file, b, size))
    else Block(s.file, b, size) == Block(orig, b, size)
  }

  // No block is being sorted by two threads.
  ghost predicate Exclusive(s: State) {
    forall t, u :: 0 <= t < |s.workers| && 0 <= u < |s.workers| && t != u && s.workers[t].Sorting? && s.workers[u].Sorting? ==>
      s.workers[t].block != s.workers[u].block
  }

  ghost predicate Inv(size: nat, count: nat, orig: seq<Record>, s: State) {
    && |s.file| == |orig| == At(count, size)
    && s.next <= count
    && s.claims == seq(s.next, i => i)
    && BarrierInv(s)
    && Exclusive(s)
    && (forall t :: 0 <= t < |s.workers| ==> WorkerInv(size, count, orig, s, t))
    && (forall b: nat :: b < count ==> BlockInv(size, orig, s, b))
  }

  lemma {:induction false} InitialInv(size: nat, count: nat, file: seq<Record>, threads: nat)
    requires |file| == At(count, size)
    ensures Inv(size, count, file, Initial(file, threads))
  {
  }

  lemma HeldKept(s: State, s': State, t: nat)
    requires |s'.workers| == |s.workers| && t < |s.workers| && s'.workers == s.workers[t := s'.workers[t]]
    ensures forall b :: Held(s, b) && !Holds(s.workers[t], b) ==> Held(s', b)
    ensures forall b :: Holds(s'.workers[t], b) ==> Held(s', b)
  {
    forall b | Held(s, b) && !Holds(s.workers[t], b) ensures Held(s', b) {
      var u :| 0 <= u < |s.workers| && Holds(s.workers[u], b);
      assert Holds(s'.workers[u], b);
    }
  }

  // Arriving at either barrier: when the barrier opens, every thread was waiting at it.
  lemma ArriveInv(size: nat, count: nat, orig: seq<Record>, s: State, t: nat, s': State)
    requires Inv(size, count, orig, s) && Step(size, count, s, t, s')
    requires s.workers[t].Starting? || (s.workers[t].Claiming? && s.next >= count)
    ensures Inv(size, count, orig, s')
  {
    OpensWhenAllArrived(s.barrier, t);
    HeldKept(s, s', t);
    forall b: nat | b < count ensures BlockInv(size, orig, s', b) {
      assert BlockInv(size, orig, s, b);
    }
    forall u | 0 <= u < |s'.workers| ensures WorkerInv(size, count, orig, s', u) {
      assert WorkerInv(size, count, orig, s, u) && WorkerInv(size, count, orig, s, t);
    }
  }

  lemma ClaimInv(size: nat, count: nat, orig: seq<Record>, s: State, t: nat, s': State)
    requires Inv(size, count, orig, s) && Step(size, count, s, t, s')
    requires s.workers[t].Claiming? && s.next < count
    ensures Inv(size, count, orig, s')
  {
    HeldKept(s, s', t);
    assert BlockInv(size, orig, s, s.next);
    assert Exclusive(s') by {
      forall u | 0 <= u < |s.workers| && s.workers[u].Sorting? ensures s.workers[u].block < s.next {
        assert WorkerInv(size, count, orig, s, u);
      }
    }
    forall b: nat | b < count ensures BlockInv(size, orig, s', b) {
      assert BlockInv(size, orig, s, b);
    }
    forall u | 0 <= u < |s'.workers| ensures WorkerInv(size, count, orig, s', u) {
      assert WorkerInv(size, count, orig, s, u) && WorkerInv(size, count, orig, s, t);
    }
  }

  lemma LeaveInv(size: nat, count: nat, orig: seq<Record>, s: State, t: nat, s': State)
    requires Inv(size, count, orig, s) && Step(size, count, s, t, s')
    requires s.workers[t].AtGate? || s.workers[t].AtExit?
    ensures Inv(size, count, orig, s')
  {
    HeldKept(s, s', t);
    forall b: nat | b < count ensures BlockInv(size, orig, s', b) {
      assert BlockInv(size, orig, s, b);
    }
    forall u | 0 <= u < |s'.workers| ensures WorkerInv(size, count, orig, s', u) {
      assert WorkerInv(size, count, orig, s, u) && WorkerInv(size, count, orig, s, t);
    }
  }

  lemma SortInv(size: nat, count: nat, orig: seq<Record>, s: State, t: nat, s': State)
    requires Inv(size, count, orig, s) && Step(size, count, s, t, s')
    requires s.workers[t].Sorting?
    ensures Inv(size, count, orig, s')
  {
    var mine := s.workers[t].block;
    assert s'.workers == s.workers[t := s'.workers[t]];
    HeldKept(s, s', t);
    assert WorkerInv(size, count, orig, s, t);
    forall b: nat | b < count ensures BlockInv(size, orig, s', b) {
      assert BlockInv(size, orig, s, b);
      if b != mine {
        BlockUntouched(s.file, s'.file, mine, b, size);
      }
    }
    forall u | 0 <= u < |s'.workers| ensures WorkerInv(size, count, orig, s', u) {
      assert WorkerInv(size, count, orig, s, u);
    }
  }

  lemma StepInv(size: nat, count: nat, orig: seq<Record>, s: State, t: nat, s': State)
    requires Inv(size, count, orig, s) && Step(size, count, s, t, s')
    ensures Inv(size, count, orig, s')
  {
    match s.workers[t]
    case Starting => ArriveInv(size, count, orig, s, t, s');
    case AtGate(_) => LeaveInv(size, count, orig, s, t, s');
    case Claiming =>
      if s.next < count { ClaimInv(size, count, orig, s, t, s'); } else { ArriveInv(size, count, orig, s, t, s'); }
    case Sorting(_, _, _) => SortInv(size, count, orig, s, t, s');
    case AtExit(_) => LeaveInv(size, count, orig, s, t, s');
  }

  // A step never touches a block that another thread is sorting, which is what lets qsort's
  // own contract be applied to each block in isolation.
  lemma NoInterference(size: nat, count: nat, orig: seq<Record>, s: State, t: nat, s': State, u: nat)
    requires Inv(size, count, orig, s) && Step(size, count, s, t, s')
    requires u < |s.workers| && u != t && s.workers[u].Sorting?
    ensures Block(s'.file, s.workers[u].block, size) == Block(s.file, s.workers[u].block, size)
  {
    if s.workers[t].Sorting? {
      BlockUntouched(s.file, s'.file, s.workers[t].block, s.workers[u].block, size);
    }
  }

  ghost predicate Next(size: nat, count: nat, s: State, s': State) {
    exists t :: Step(size, count, s, t, s')
  }

  ghost predicate IsRun(size: nat, count: nat, orig: seq<Record>, threads: nat, run: seq<State>) {
    && |run| > 0 && run[0] == Initial(orig, threads)
    && forall i :: 0 < i < |run| ==> Next(size, count, run[i - 1], run[i])
  }

  lemma {:induction false} RunInv(size: nat, count: nat, orig: seq<Record>, threads: nat, run: seq<State>, i: nat)
    requires |orig| == At(count, size) && IsRun(size, count, orig, threads, run) && i < |run|
    ensures Inv(size, count, orig, run[i]) && |run[i].workers| == threads
  {
    if i == 0 {
      InitialInv(size, count, orig, threads);
    } else {
      RunInv(size, count, orig, threads, run, i - 1);
      var t :| Step(size, count, run[i - 1], t, run[i]);
      StepInv(size, count, orig, run[i - 1], t, run[i]);
    }
  }

  ghost predicate BlocksSorted(size: nat, count: nat, orig: seq<Record>, file: seq<Record>) {
    |file| == |orig| && forall b: nat :: b < count ==> SortedPermutationOf(Block(orig, b, size), Block(file, b, size))
  }

  lemma PastBarrierSorted(size: nat, count: nat, orig: seq<Record>, s: State, t: nat)
    requires Inv(size, count, orig, s)
    requires t < |s.workers| && s.workers[t].Returned?
    ensures BlocksSorted(size, count, orig, s.file)
    ensures s.claims == seq(count, i => i)
  {
    assert WorkerInv(size, count, orig, s, t);
    forall u | 0 <= u < |s.workers| ensures !s.workers[u].Sorting? {
      assert WorkerInv(size, count, orig, s, u);
    }
    forall b: nat | b < count ensures SortedPermutationOf(Block(orig, b, size), Block(s.file, b, size)) {
      assert BlockInv(size, orig, s, b) && !Held(s, b);
    }
  }

  // Block-sort phase: in every run, once any thread is past the second barrier every block
  // index has been handed out exactly once and every block is a sorted permutation of itself.
  lemma {:induction false} AllRunsSortBlocks(size: nat, count: nat, orig: seq<Record>, threads: nat, run: seq<State>, i: nat, t: nat)
    requires |orig| == At(count, size) && IsRun(size, count, orig, threads, run) && i < |run|
    requires t < |run[i].workers| && run[i].workers[t].Returned?
    ensures BlocksSorted(size, count, orig, run[i].file)
    ensures run[i].claims == seq(count, b => b)
  {
    RunInv(size, count, orig, threads, run, i);
    PastBarrierSorted(size, count, orig, run[i], t);
  }

  // No deadlock: until every thread has returned, some thread can step.
  lemma SomeThreadCanStep(size: nat, count: nat, orig: seq<Record>, s: State, t: nat)
    requires Inv(size, count, orig, s)
    requires t < |s.workers| && !s.workers[t].Returned?
    ensures exists u, s' :: Step(size, count, s, u, s')
  {
    if forall u :: !CanStep(s, u) {
      forall u: nat | u < |s.workers| ensures u in s.barrier.arrived {
        assert !CanStep(s, u) && WorkerInv(size, count, orig, s, u) && WorkerInv(size, count, orig, s, t);
        assert !CanStep(s, t);
      }
      AllBelow(s.barrier.arrived, |s.workers|);
    }
    var u :| CanStep(s, u);
    var s' := StepOf(size, count, orig, s, u);
  }

  // A step of a thread that is not waiting; a qsort returns at once.
  lemma StepOf(size: nat, count: nat, orig: seq<Record>, s: State, t: nat) returns (s': State)
    requires Inv(size, count, orig, s) && CanStep(s, t)
    ensures Step(size, count, s, t, s')
  {
    assert WorkerInv(size, count, orig, s, t);
    match s.workers[t]
    case Starting =>
      s' := s.(barrier := s.barrier.Arrive(t), workers := s.workers[t := AtGate(s.barrier.generation)]);
    case AtGate(_) =>
      s' := s.(workers := s.workers[t := Claiming]);
    case Claiming =>
      if s.next < count {
        s' := s.(next := s.next + 1, claims := s.claims + [s.next],
                 workers := s.workers[t := Sorting(s.next, Block(s.file, s.next, size), 0)]);
      } else {
        s' := s.(barrier := s.barrier.Arrive(t), workers := s.workers[t := AtExit(s.barrier.generation)]);
      }
    case Sorting(b, before, _) =>
      AtMonotone(b, count, size);
      InsertionSorts(before);
      ReplacedPart(s.file, At(b, size), InsertionSorted(before));
      s' := s.(file := Replaced(s.file, At(b, size), InsertionSorted(before)), workers := s.workers[t := Claiming]);
    case AtExit(_) =>
      s' := s.(workers := s.workers[t := Returned]);
  }

  // Steps a worker still has before it returns, not counting further claims.
  function Work(w: Worker): nat {
    match w
    case Starting => 4
    case AtGate(_) => 3
    case Claiming => 2
    case Sorting(_, _, writes) => 3 + writes
    case AtExit(_) => 1
    case Returned => 0
  }

  // Termination of every run: each step claims another block or shortens the work in hand.
  lemma EveryStepProgresses(size: nat, count: nat, orig: seq<Record>, s: State, t: nat, s': State)
    requires Inv(size, count, orig, s) && Step(size, count, s, t, s')
    ensures s.next <= s'.next <= count
    ensures s'.next == s.next ==> Total(Work, s'.workers) < Total(Work, s.workers)
  {
    StepInv(size, count, orig, s, t, s');
    TotalUpdate(Work, s.workers, t, s'.workers[t]);
    assert s'.workers == s.workers[t := s'.workers[t]];
  }
}

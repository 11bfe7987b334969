/** One merge round of process_portion: the threads that run thread_merge, as a step relation
    at the grain of one record. merge_blocks runs inside a thread: each comparison, each copy
    into tmp and each record of the final memcpy is a step other threads may interleave with. */
module MergeThreads {
  import opened IndexRecords
  import opened Segments
  import opened ThreadBarrier
  import opened Totals
  import opened RunMerge

  datatype Worker =
    | Claiming
    | Merging(block: nat, i: nat, j: nat, tmp: seq<Record>)   // the three loops of merge_blocks
    | CopyingBack(block: nat, tmp: seq<Record>, k: nat)       // its memcpy, k records done
    | AtExit(ticket: nat)                                     // pthread_barrier_wait
    | Returned

  // claims logs the left block indices in the order they are handed out.
  datatype State = State(file: seq<Record>, next: nat, barrier: Barrier, workers: seq<Worker>, claims: seq<nat>)

  function Initial(file: seq<Record>, threads: nat): State {
    State(file, 0, Fresh(threads), seq(threads, _ => Claiming), [])
  }

  // A thread waits only at a barrier that has not opened since it arrived.
  predicate Runnable(b: Barrier, w: Worker) {
    match w
    case AtExit(k) => b.Released(k)
    case Returned => false
    case _ => true
  }

  // The records a merging thread reads next are in the file.
  predicate RunsExist(size: nat, length: nat, m: nat, i: nat, j: nat) {
    (i < size ==> At(m, size) + i < length) && (j < size ==> At(m + 1, size) + j < length)
  }

  // The thread after one turn of the three loops of merge_blocks.
  function MergedOne(size: nat, file: seq<Record>, m: nat, i: nat, j: nat, tmp: seq<Record>): Worker
    requires RunsExist(size, |file|, m, i, j)
  {
    var left, right := At(m, size), At(m + 1, size);
    if i < size && j < size then
      if CmpIndex(file[left + i], file[right + j]) <= 0 then Merging(m, i + 1, j, tmp + [file[left + i]])
      else Merging(m, i, j + 1, tmp + [file[right + j]])
    else if i < size then Merging(m, i + 1, j, tmp + [file[left + i]])
    else if j < size then Merging(m, i, j + 1, tmp + [file[right + j]])
    else CopyingBack(m, tmp, 0)
  }

  predicate CanStep(s: State, t: nat) {
    t < |s.workers| && Runnable(s.barrier, s.workers[t])
  }

  predicate Step(size: nat, count: nat, s: State, t: nat, s': State) {
    CanStep(s, t) &&
    match s.workers[t]
    case Claiming =>
      if s.next + 1 < count then
        s' == s.(next := s.next + 2, claims := s.claims + [s.next], workers := s.workers[t := Merging(s.next, 0, 0, [])])
      else
        s' == s.(barrier := s.barrier.Arrive(t), workers := s.workers[t := AtExit(s.barrier.generation)])
    case Merging(m, i, j, tmp) =>
      RunsExist(size, |s.file|, m, i, j) && s' == s.(workers := s.workers[t := MergedOne(size, s.file, m, i, j, tmp)])
    case CopyingBack(m, tmp, k) =>
      if k < |tmp| then
        At(m, size) + k < |s.file| &&
        s' == s.(file := s.file[At(m, size) + k := tmp[k]], workers := s.workers[t := CopyingBack(m, tmp, k + 1)])
      else
        s' == s.(workers := s.workers[t := Claiming])
    case AtExit(_) =>
      s' == s.(workers := s.workers[t := Returned])
    case Returned => false
  }

  predicate Holds(w: Worker, m: nat) {
    (w.Merging? || w.CopyingBack?) && w.block == m
  }

  ghost predicate Held(s: State, m: nat) {
    exists t :: 0 <= t < |s.workers| && Holds(s.workers[t], m)
  }

  function MergedPair(orig: seq<Record>, m: nat, size: nat): seq<Record> {
    Merge(Block(orig, m, size), Block(orig, m + 1, size))
  }

  // tmp is the beginning of the pair's merge, up to the records i and j of the two blocks.
  ghost predicate MergedSoFar(orig: seq<Record>, m: nat, size: nat, i: nat, j: nat, tmp: seq<Record>) {
    var merged := MergedPair(orig, m, size);
    && RestMerged(orig, At(m, size), size, size, i, j, merged)
    && |tmp| == i + j && forall x :: 0 <= x < |tmp| ==> tmp[x] == merged[x]
  }

  ghost predicate MergingInv(size: nat, orig: seq<Record>, s: State, m: nat, i: nat, j: nat, tmp: seq<Record>) {
    var l, r := Block(orig, m, size), Block(orig, m + 1, size);
    && m % 2 == 0 && m + 2 <= s.next
    && |l| == |r| == size
    && Block(s.file, m, size) == l && Block(s.file, m + 1, size) == r
    && MergedSoFar(orig, m, size, i, j, tmp)
  }

  ghost predicate CopyingInv(size: nat, orig: seq<Record>, s: State, m: nat, tmp: seq<Record>, k: nat) {
    && m % 2 == 0 && m + 2 <= s.next
    && k <= |tmp| == 2 * size
    && tmp == MergedPair(orig, m, size)
    && (k > 0 ==> At(m, size) + k <= |s.file|)
    && forall x :: 0 <= x < k ==> s.file[At(m, size) + x] == tmp[x]
  }

  ghost predicate WorkerInv(size: nat, count: nat, orig: seq<Record>, s: State, t: nat)
    requires t < |s.workers|
  {
    var g := s.barrier.generation;
    match s.workers[t]
    case Claiming => g == 0 && t !in s.barrier.arrived
    case Merging(m, i, j, tmp) => g == 0 && t !in s.barrier.arrived && MergingInv(size, orig, s, m, i, j, tmp)
    case CopyingBack(m, tmp, k) => g == 0 && t !in s.barrier.arrived && CopyingInv(size, orig, s, m, tmp, k)
    case AtExit(k) => k == 0 && (t in s.barrier.arrived <==> g == 0) && s.next + 1 >= count
    case Returned => g == 1 && s.next + 1 >= count
  }

  ghost predicate BarrierInv(s: State) {
    && s.barrier.parties == |s.workers|
    && Below(s.barrier.arrived, |s.workers|)
    && (|s.workers| > 0 ==> |s.barrier.arrived| < |s.workers|)
    && s.barrier.generation <= 1
  }

  ghost predicate PairInv(size: nat, orig: seq<Record>, s: State, m: nat) {
    Held(s, m) || Part(s.file, At(m, size), 2 * size) == MergedPair(orig, m, size)
  }

  // Segments being merged never overlap: no pair is held by two threads.
  ghost predicate Exclusive(s: State) {
    forall t, u, m :: 0 <= t < |s.workers| && 0 <= u < |s.workers| && Holds(s.workers[t], m) && Holds(s.workers[u], m) ==> t == u
  }

  ghost predicate Inv(size: nat, count: nat, orig: seq<Record>, s: State) {
    && |s.file| == |orig| == At(count, size)
    && s.next % 2 == 0 && s.next <= count
    && s.claims == seq(s.next / 2, i => 2 * i)
    && BarrierInv(s)
    && Exclusive(s)
    && (forall t :: 0 <= t < |s.workers| ==> WorkerInv(size, count, orig, s, t))
    && (forall m: nat :: m % 2 == 0 && m < s.next ==> PairInv(size, orig, s, m))
    && (forall b: nat :: s.next <= b < count ==> Block(s.file, b, size) == Block(orig, b, size))
  }

  lemma {:induction false} InitialInv(size: nat, count: nat, file: seq<Record>, threads: nat)
    requires |file| == At(count, size)
    ensures Inv(size, count, file, Initial(file, threads))
  {
  }

  lemma HeldKept(s: State, s': State, t: nat)
    requires |s'.workers| == |s.workers| && t < |s.workers| && s'.workers == s.workers[t := s'.workers[t]]
    ensures forall m :: Held(s, m) && !Holds(s.workers[t], m) ==> Held(s', m)
    ensures forall m :: Holds(s'.workers[t], m) ==> Held(s', m)
  {
    forall m | Held(s, m) && !Holds(s.workers[t], m) ensures Held(s', m) {
      var u :| 0 <= u < |s.workers| && Holds(s.workers[u], m);
      assert Holds(s'.workers[u], m);
    }
  }

  lemma PairInBounds(count: nat, size: nat, m: nat)
    requires m + 2 <= count
    ensures At(m, size) + 2 * size <= At(count, size) && At(m + 1, size) == At(m, size) + size
  {
    PairsApart(m, count, size);
  }

  lemma MergingStarts(size: nat, orig: seq<Record>, s: State, m: nat)
    requires m % 2 == 0 && m + 2 <= s.next
    requires At(m, size) + 2 * size <= |orig|
    requires Block(s.file, m, size) == Block(orig, m, size) && Block(s.file, m + 1, size) == Block(orig, m + 1, size)
    ensures MergingInv(size, orig, s, m, 0, 0, [])
  {
    assert At(m + 1, size) == At(m, size) + size;
    RestStart(orig, At(m, size), size, size, 0, 0);
  }

  lemma ClaimKeepsOthers(size: nat, count: nat, orig: seq<Record>, s: State, t: nat, s': State, u: nat)
    requires Inv(size, count, orig, s) && Step(size, count, s, t, s')
    requires s.workers[t].Claiming? && s.next + 1 < count && u < |s.workers| && u != t
    ensures WorkerInv(size, count, orig, s', u)
  {
    assert WorkerInv(size, count, orig, s, u);
  }

  lemma ClaimStarts(size: nat, count: nat, orig: seq<Record>, s: State, t: nat, s': State)
    requires Inv(size, count, orig, s) && Step(size, count, s, t, s')
    requires s.workers[t].Claiming? && s.next + 1 < count
    ensures WorkerInv(size, count, orig, s', t)
  {
    PairInBounds(count, size, s.next);
    assert WorkerInv(size, count, orig, s, t);
    assert Block(s.file, s.next, size) == Block(orig, s.next, size);
    assert Block(s.file, s.next + 1, size) == Block(orig, s.next + 1, size);
    MergingStarts(size, orig, s', s.next);
  }

  lemma ClaimInv(size: nat, count: nat, orig: seq<Record>, s: State, t: nat, s': State)
    requires Inv(size, count, orig, s) && Step(size, count, s, t, s')
    requires s.workers[t].Claiming? && s.next + 1 < count
    ensures Inv(size, count, orig, s')
  {
    HeldKept(s, s', t);
    PairInBounds(count, size, s.next);
    forall u | 0 <= u < |s'.workers| ensures WorkerInv(size, count, orig, s', u) {
      if u != t { ClaimKeepsOthers(size, count, orig, s, t, s', u); } else { ClaimStarts(size, count, orig, s, t, s'); }
    }
    forall m: nat | m % 2 == 0 && m < s'.next ensures PairInv(size, orig, s', m) {
      if m < s.next { assert PairInv(size, orig, s, m); } else { assert m == s.next; }
    }
    assert Exclusive(s') by {
      forall u, m: nat | 0 <= u < |s.workers| && Holds(s.workers[u], m) ensures m < s.next {
        assert WorkerInv(size, count, orig, s, u);
      }
    }
  }

  lemma ArriveInv(size: nat, count: nat, orig: seq<Record>, s: State, t: nat, s': State)
    requires Inv(size, count, orig, s) && Step(size, count, s, t, s')
    requires s.workers[t].Claiming? && s.next + 1 >= count
    ensures Inv(size, count, orig, s')
  {
    OpensWhenAllArrived(s.barrier, t);
    HeldKept(s, s', t);
    forall u | 0 <= u < |s'.workers| ensures WorkerInv(size, count, orig, s', u) {
      assert WorkerInv(size, count, orig, s, u) && WorkerInv(size, count, orig, s, t);
    }
    forall m: nat | m % 2 == 0 && m < s'.next ensures PairInv(size, orig, s', m) {
      assert PairInv(size, orig, s, m);
    }
  }

  lemma LeaveInv(size: nat, count: nat, orig: seq<Record>, s: State, t: nat, s': State)
    requires Inv(size, count, orig, s) && Step(size, count, s, t, s')
    requires s.workers[t].AtExit?
    ensures Inv(size, count, orig, s')
  {
    HeldKept(s, s', t);
    forall u | 0 <= u < |s'.workers| ensures WorkerInv(size, count, orig, s', u) {
      assert WorkerInv(size, count, orig, s, u) && WorkerInv(size, count, orig, s, t);
    }
    forall m: nat | m % 2 == 0 && m < s'.next ensures PairInv(size, orig, s', m) {
      assert PairInv(size, orig, s, m);
    }
  }

  lemma {:induction false} MergingEnds(size: nat, orig: seq<Record>, s: State, m: nat, tmp: seq<Record>)
    requires MergingInv(size, orig, s, m, size, size, tmp)
    ensures CopyingInv(size, orig, s, m, tmp, 0)
  {
    assert tmp == MergedPair(orig, m, size);
  }

  // MergingInv and CopyingInv look only at the file and g_next_block.
  lemma SameFileSameInv(size: nat, orig: seq<Record>, s: State, s': State, m: nat, i: nat, j: nat, k: nat, tmp: seq<Record>)
    requires s'.file == s.file && s'.next == s.next
    ensures MergingInv(size, orig, s, m, i, j, tmp) <==> MergingInv(size, orig, s', m, i, j, tmp)
    ensures CopyingInv(size, orig, s, m, tmp, k) <==> CopyingInv(size, orig, s', m, tmp, k)
  {
  }

  // The records a merging thread reads are those of its two blocks before the round.
  lemma {:induction false} MergingReads(size: nat, orig: seq<Record>, s: State, m: nat, i: nat, j: nat, tmp: seq<Record>)
    requires MergingInv(size, orig, s, m, i, j, tmp) && RunsExist(size, |s.file|, m, i, j)
    ensures At(m + 1, size) == At(m, size) + size && At(m, size) + 2 * size <= |orig|
    ensures i < size ==> s.file[At(m, size) + i] == orig[At(m, size) + i]
    ensures j < size ==> s.file[At(m + 1, size) + j] == orig[At(m, size) + size + j]
  {
    assert At(m + 1, size) == At(m, size) + size;
    assert i < size ==> Block(s.file, m, size)[i] == Block(orig, m, size)[i];
    assert j < size ==> Block(s.file, m + 1, size)[j] == Block(orig, m + 1, size)[j];
  }

  // What a thread inside merge_blocks knows.
  ghost predicate MergeWorkInv(size: nat, orig: seq<Record>, s: State, w: Worker) {
    match w
    case Merging(m, i, j, tmp) => MergingInv(size, orig, s, m, i, j, tmp)
    case CopyingBack(m, tmp, k) => CopyingInv(size, orig, s, m, tmp, k)
    case _ => true
  }

  // A merging thread takes a record from the left block.
  lemma {:induction false} MergingLeft(size: nat, orig: seq<Record>, s: State, m: nat, i: nat, j: nat, tmp: seq<Record>)
    requires MergingInv(size, orig, s, m, i, j, tmp) && RunsExist(size, |s.file|, m, i, j) && i < size
    requires j < size ==> CmpIndex(s.file[At(m, size) + i], s.file[At(m + 1, size) + j]) <= 0
    ensures MergingInv(size, orig, s, m, i + 1, j, tmp + [s.file[At(m, size) + i]])
  {
    MergingReads(size, orig, s, m, i, j, tmp);
    assert MergedPair(orig, m, size)[i + j] == s.file[At(m, size) + i];
  }

  lemma {:induction false} MergingRight(size: nat, orig: seq<Record>, s: State, m: nat, i: nat, j: nat, tmp: seq<Record>)
    requires MergingInv(size, orig, s, m, i, j, tmp) && RunsExist(size, |s.file|, m, i, j) && j < size
    requires i < size ==> CmpIndex(s.file[At(m, size) + i], s.file[At(m + 1, size) + j]) > 0
    ensures MergingInv(size, orig, s, m, i, j + 1, tmp + [s.file[At(m + 1, size) + j]])
  {
    MergingReads(size, orig, s, m, i, j, tmp);
    assert MergedPair(orig, m, size)[i + j] == s.file[At(m + 1, size) + j];
  }

  lemma {:induction false} MergedOneInv(size: nat, orig: seq<Record>, s: State, m: nat, i: nat, j: nat, tmp: seq<Record>) returns (next: Worker)
    requires MergingInv(size, orig, s, m, i, j, tmp) && RunsExist(size, |s.file|, m, i, j)
    ensures next == MergedOne(size, s.file, m, i, j, tmp) && MergeWorkInv(size, orig, s, next)
  {
    if i < size && (j < size ==> CmpIndex(s.file[At(m, size) + i], s.file[At(m + 1, size) + j]) <= 0) {
      next := Merging(m, i + 1, j, tmp + [s.file[At(m, size) + i]]);
      MergingLeft(size, orig, s, m, i, j, tmp);
    } else if j < size {
      next := Merging(m, i, j + 1, tmp + [s.file[At(m + 1, size) + j]]);
      MergingRight(size, orig, s, m, i, j, tmp);
    } else {
      next := CopyingBack(m, tmp, 0);
      MergingEnds(size, orig, s, m, tmp);
    }
  }

  lemma MergingInvStep(size: nat, count: nat, orig: seq<Record>, s: State, t: nat, s': State)
    requires WorkerInvAt(size, count, orig, s, t) && Step(size, count, s, t, s')
    requires s.workers[t].Merging?
    ensures WorkerInvAt(size, count, orig, s', t)
  {
    var Merging(m, i, j, tmp) := s.workers[t];
    var next := MergedOneInv(size, orig, s, m, i, j, tmp);
    match next
    case Merging(m', i', j', tmp') => SameFileSameInv(size, orig, s, s', m', i', j', 0, tmp');
    case CopyingBack(m', tmp', k') => SameFileSameInv(size, orig, s, s', m', 0, 0, k', tmp');
  }

  ghost predicate WorkerInvAt(size: nat, count: nat, orig: seq<Record>, s: State, t: nat) {
    t < |s.workers| && WorkerInv(size, count, orig, s, t)
  }

  lemma MergeInv(size: nat, count: nat, orig: seq<Record>, s: State, t: nat, s': State)
    requires Inv(size, count, orig, s) && Step(size, count, s, t, s')
    requires s.workers[t].Merging?
    ensures Inv(size, count, orig, s')
  {
    HeldKept(s, s', t);
    assert WorkerInv(size, count, orig, s, t);
    MergingInvStep(size, count, orig, s, t, s');
    forall u | 0 <= u < |s'.workers| ensures WorkerInv(size, count, orig, s', u) {
      assert WorkerInv(size, count, orig, s, u);
    }
    forall m: nat | m % 2 == 0 && m < s'.next ensures PairInv(size, orig, s', m) {
      assert PairInv(size, orig, s, m);
    }
    assert Exclusive(s') by {
      assert forall m :: Holds(s'.workers[t], m) <==> Holds(s.workers[t], m);
    }
  }

  // Copying back writes only inside the pair the thread holds.
  lemma {:induction false} CopyTouchesOwnPair(size: nat, count: nat, orig: seq<Record>, s: State, t: nat, s': State)
    requires Inv(size, count, orig, s) && Step(size, count, s, t, s')
    requires s.workers[t].CopyingBack?
    ensures SameOutside(s.file, s'.file, At(s.workers[t].block, size), 2 * size)
    ensures forall m: nat :: m % 2 == 0 && m != s.workers[t].block ==>
              Part(s'.file, At(m, size), 2 * size) == Part(s.file, At(m, size), 2 * size)
    ensures forall b: nat :: b / 2 * 2 != s.workers[t].block ==> Block(s'.file, b, size) == Block(s.file, b, size)
  {
    assert WorkerInv(size, count, orig, s, t);
    var mine := s.workers[t].block;
    PairInBounds(count, size, mine);
    forall m: nat | m % 2 == 0 && m != mine
      ensures Part(s'.file, At(m, size), 2 * size) == Part(s.file, At(m, size), 2 * size)
    {
      if m < mine { PairsApart(m, mine, size); } else { PairsApart(mine, m, size); }
      PartUntouched(s.file, s'.file, At(mine, size), 2 * size, At(m, size), 2 * size);
    }
    forall b: nat | b / 2 * 2 != mine ensures Block(s'.file, b, size) == Block(s.file, b, size) {
      if b < mine { AtMonotone(b, mine, size); } else { PairsApart(mine, b, size); }
      PartUntouched(s.file, s'.file, At(mine, size), 2 * size, At(b, size), size);
    }
  }

  lemma {:induction false} CopyStepOwn(size: nat, count: nat, orig: seq<Record>, s: State, t: nat, s': State)
    requires Inv(size, count, orig, s) && Step(size, count, s, t, s')
    requires s.workers[t].CopyingBack?
    ensures WorkerInv(size, count, orig, s', t)
    ensures s'.workers[t].Claiming? ==> Part(s'.file, At(s.workers[t].block, size), 2 * size) == MergedPair(orig, s.workers[t].block, size)
  {
    var CopyingBack(m, tmp, k) := s.workers[t];
    assert WorkerInv(size, count, orig, s, t);
    PairInBounds(count, size, m);
    if k == |tmp| {
      assert Part(s'.file, At(m, size), 2 * size) == tmp;
    }
  }

  lemma CopyKeepsMerging(size: nat, orig: seq<Record>, s: State, s': State, mine: nat, m: nat, i: nat, j: nat, tmp: seq<Record>)
    requires MergingInv(size, orig, s, m, i, j, tmp) && s'.next == s.next && m != mine && mine % 2 == 0
    requires forall b: nat :: b / 2 * 2 != mine ==> Block(s'.file, b, size) == Block(s.file, b, size)
    ensures MergingInv(size, orig, s', m, i, j, tmp)
  {
    assert m / 2 * 2 == m && (m + 1) / 2 * 2 == m;
    assert Block(s'.file, m, size) == Block(s.file, m, size);
    assert Block(s'.file, m + 1, size) == Block(s.file, m + 1, size);
  }

  lemma {:induction false} CopyKeepsCopying(size: nat, orig: seq<Record>, s: State, s': State, mine: nat, m: nat, tmp: seq<Record>, k: nat)
    requires CopyingInv(size, orig, s, m, tmp, k) && s'.next == s.next && m != mine && mine % 2 == 0
    requires SameOutside(s.file, s'.file, At(mine, size), 2 * size)
    ensures CopyingInv(size, orig, s', m, tmp, k)
  {
    if m < mine { PairsApart(m, mine, size); } else { PairsApart(mine, m, size); }
  }

  lemma OthersKeepInv(size: nat, count: nat, orig: seq<Record>, s: State, t: nat, s': State, u: nat)
    requires Inv(size, count, orig, s) && Step(size, count, s, t, s')
    requires s.workers[t].CopyingBack? && u < |s.workers| && u != t
    ensures WorkerInv(size, count, orig, s', u)
  {
    CopyTouchesOwnPair(size, count, orig, s, t, s');
    assert WorkerInv(size, count, orig, s, u) && WorkerInv(size, count, orig, s, t);
    var mine := s.workers[t].block;
    assert Holds(s.workers[t], mine);
    match s.workers[u]
    case Merging(m, i, j, tmp) =>
      assert Holds(s.workers[u], m);
      CopyKeepsMerging(size, orig, s, s', mine, m, i, j, tmp);
    case CopyingBack(m, tmp, k) =>
      assert Holds(s.workers[u], m);
      CopyKeepsCopying(size, orig, s, s', mine, m, tmp, k);
    case _ =>
  }

  lemma CopyInv(size: nat, count: nat, orig: seq<Record>, s: State, t: nat, s': State)
    requires Inv(size, count, orig, s) && Step(size, count, s, t, s')
    requires s.workers[t].CopyingBack?
    ensures Inv(size, count, orig, s')
  {
    HeldKept(s, s', t);
    CopyTouchesOwnPair(size, count, orig, s, t, s');
    CopyStepOwn(size, count, orig, s, t, s');
    assert WorkerInv(size, count, orig, s, t);
    forall u | 0 <= u < |s'.workers| ensures WorkerInv(size, count, orig, s', u) {
      if u != t { OthersKeepInv(size, count, orig, s, t, s', u); }
    }
    forall m: nat | m % 2 == 0 && m < s'.next ensures PairInv(size, orig, s', m) {
      assert PairInv(size, orig, s, m);
    }
    assert Exclusive(s') by {
      assert forall m :: Holds(s'.workers[t], m) ==> Holds(s.workers[t], m);
    }
  }

  lemma StepInv(size: nat, count: nat, orig: seq<Record>, s: State, t: nat, s': State)
    requires Inv(size, count, orig, s) && Step(size, count, s, t, s')
    ensures Inv(size, count, orig, s')
  {
    match s.workers[t]
    case Claiming =>
      if s.next + 1 < count { ClaimInv(size, count, orig, s, t, s'); } else { ArriveInv(size, count, orig, s, t, s'); }
    case Merging(_, _, _, _) => MergeInv(size, count, orig, s, t, s');
    case CopyingBack(_, _, _) => CopyInv(size, count, orig, s, t, s');
    case AtExit(_) => LeaveInv(size, count, orig, s, t, s');
  }

  ghost predicate Next(size: nat, count: nat, s: State, s': State) {
    exists t :: Step(size, count, s, t, s')
  }

  ghost predicate IsRun(size: nat, count: nat, orig: seq<Record>, threads: nat, run: seq<State>) {
    && |run| > 0 && run[0] == Initial(orig, threads)
    && forall i :: 0 < i < |run| ==> Next(size, count, run[i - 1], run[i])
  }

  lemma {:induction false} RunInv(size: nat, count: nat, orig: seq<Record>, threads: nat, run: seq<State>, i: nat)
    requires |orig| == At(count, size) && IsRun(size, count, orig, threads, run) && i < |run|
    ensures Inv(size, count, orig, run[i])
  {
    if i == 0 {
      InitialInv(size, count, orig, threads);
    } else {
      RunInv(size, count, orig, threads, run, i - 1);
      var t :| Step(size, count, run[i - 1], t, run[i]);
      StepInv(size, count, orig, run[i - 1], t, run[i]);
    }
  }

  // Every even block holds its pair merged; an odd last block is untouched.
  ghost predicate RoundDone(size: nat, count: nat, orig: seq<Record>, file: seq<Record>) {
    && |file| == |orig|
    && (forall m: nat :: m % 2 == 0 && m + 2 <= count ==> Part(file, At(m, size), 2 * size) == MergedPair(orig, m, size))
    && (count % 2 == 1 ==> Block(file, count - 1, size) == Block(orig, count - 1, size))
  }

  lemma PastBarrierMerged(size: nat, count: nat, orig: seq<Record>, s: State, t: nat)
    requires Inv(size, count, orig, s)
    requires t < |s.workers| && s.workers[t].Returned?
    ensures RoundDone(size, count, orig, s.file)
    ensures s.claims == seq(count / 2, p => 2 * p)
  {
    assert WorkerInv(size, count, orig, s, t);
    forall u, m | 0 <= u < |s.workers| ensures !Holds(s.workers[u], m) {
      assert WorkerInv(size, count, orig, s, u);
    }
    forall m: nat | m % 2 == 0 && m + 2 <= count
      ensures Part(s.file, At(m, size), 2 * size) == MergedPair(orig, m, size)
    {
      assert PairInv(size, orig, s, m) && !Held(s, m);
    }
  }

  // Merge round: in every run, once any thread has left the barrier every even block index
  // with a partner has been handed out exactly once and holds its pair merged. The file is a
  // function of the file before the round, whatever the interleaving and number of threads.
  lemma {:induction false} AllRunsMergePairs(size: nat, count: nat, orig: seq<Record>, threads: nat, run: seq<State>, i: nat, t: nat)
    requires |orig| == At(count, size) && IsRun(size, count, orig, threads, run) && i < |run|
    requires t < |run[i].workers| && run[i].workers[t].Returned?
    ensures RoundDone(size, count, orig, run[i].file)
    ensures run[i].claims == seq(count / 2, p => 2 * p)
  {
    RunInv(size, count, orig, threads, run, i);
    PastBarrierMerged(size, count, orig, run[i], t);
  }

  lemma SamePart(f: seq<Record>, g: seq<Record>, lo: nat, n: nat)
    requires lo + n <= |f| == |g| && Part(f, lo, n) == Part(g, lo, n)
    ensures forall x :: lo <= x < lo + n ==> f[x] == g[x]
  {
    forall x | lo <= x < lo + n ensures f[x] == g[x] {
      assert Part(f, lo, n)[x - lo] == f[lo + (x - lo)] && Part(g, lo, n)[x - lo] == g[lo + (x - lo)];
    }
  }

  // Every pair is the same in f and g.
  ghost predicate PairsAgree(size: nat, count: nat, f: seq<Record>, g: seq<Record>) {
    |f| == |g| == At(count, size) &&
    forall m: nat :: m % 2 == 0 && m + 2 <= count ==> Part(f, At(m, size), 2 * size) == Part(g, At(m, size), 2 * size)
  }

  lemma {:induction false} RoundFixesPairs(size: nat, count: nat, orig: seq<Record>, f: seq<Record>, g: seq<Record>)
    requires |orig| == At(count, size) && RoundDone(size, count, orig, f) && RoundDone(size, count, orig, g)
    ensures PairsAgree(size, count, f, g)
  {
    forall m: nat | m % 2 == 0 && m + 2 <= count ensures Part(f, At(m, size), 2 * size) == Part(g, At(m, size), 2 * size) {
      assert Part(f, At(m, size), 2 * size) == MergedPair(orig, m, size);
    }
  }

  lemma {:induction false} PairsFixPrefix(size: nat, count: nat, f: seq<Record>, g: seq<Record>, m: nat)
    requires PairsAgree(size, count, f, g) && m % 2 == 0 && m <= count
    ensures At(m, size) <= |f| && forall x :: 0 <= x < At(m, size) ==> f[x] == g[x]
  {
    AtMonotone(m, count, size);
    if m > 0 {
      PairsFixPrefix(size, count, f, g, m - 2);
      assert At(m, size) == At(m - 1, size) + size == At(m - 2, size) + 2 * size;
      SamePart(f, g, At(m - 2, size), 2 * size);
    }
  }

  lemma {:induction false} RoundFixesFile(size: nat, count: nat, orig: seq<Record>, f: seq<Record>, g: seq<Record>)
    requires |orig| == At(count, size) && RoundDone(size, count, orig, f) && RoundDone(size, count, orig, g)
    ensures f == g
  {
    var even := count - count % 2;
    RoundFixesPairs(size, count, orig, f, g);
    PairsFixPrefix(size, count, f, g, even);
    if even < count {
      SamePart(f, g, At(even, size), size);
    }
  }

  // Schedule independence: two runs of a round on the same file, with any numbers of threads and
  // any interleavings, end in the same file.
  lemma {:induction false} SchedulesAgree(size: nat, count: nat, orig: seq<Record>, threads: nat, run: seq<State>, t: nat,
                       threads': nat, run': seq<State>, t': nat)
    requires |orig| == At(count, size)
    requires IsRun(size, count, orig, threads, run) && t < |run[|run| - 1].workers| && run[|run| - 1].workers[t].Returned?
    requires IsRun(size, count, orig, threads', run') && t' < |run'[|run'| - 1].workers| && run'[|run'| - 1].workers[t'].Returned?
    ensures run[|run| - 1].file == run'[|run'| - 1].file
  {
    AllRunsMergePairs(size, count, orig, threads, run, |run| - 1, t);
    AllRunsMergePairs(size, count, orig, threads', run', |run'| - 1, t');
    RoundFixesFile(size, count, orig, run[|run| - 1].file, run'[|run'| - 1].file);
  }

  // No deadlock: until every thread has returned, some thread can step.
  lemma SomeThreadCanStep(size: nat, count: nat, orig: seq<Record>, s: State, t: nat)
    requires Inv(size, count, orig, s)
    requires t < |s.workers| && !s.workers[t].Returned?
    ensures exists u, s' :: Step(size, count, s, u, s')
  {
    if forall u :: !CanStep(s, u) {
      forall u: nat | u < |s.workers| ensures u in s.barrier.arrived {
        assert !CanStep(s, u) && WorkerInv(size, count, orig, s, u) && WorkerInv(size, count, orig, s, t);
        assert !CanStep(s, t);
      }
      AllBelow(s.barrier.arrived, |s.workers|);
    }
    var u :| CanStep(s, u);
    var s' := StepOf(size, count, orig, s, u);
  }

  // The step of a thread that is not waiting.
  lemma StepOf(size: nat, count: nat, orig: seq<Record>, s: State, t: nat) returns (s': State)
    requires Inv(size, count, orig, s) && CanStep(s, t)
    ensures Step(size, count, s, t, s')
  {
    assert WorkerInv(size, count, orig, s, t);
    match s.workers[t]
    case Claiming =>
      if s.next + 1 < count {
        s' := s.(next := s.next + 2, claims := s.claims + [s.next], workers := s.workers[t := Merging(s.next, 0, 0, [])]);
      } else {
        s' := s.(barrier := s.barrier.Arrive(t), workers := s.workers[t := AtExit(s.barrier.generation)]);
      }
    case Merging(m, i, j, tmp) =>
      PairInBounds(count, size, m);
      s' := s.(workers := s.workers[t := MergedOne(size, s.file, m, i, j, tmp)]);
    case CopyingBack(m, tmp, k) =>
      PairInBounds(count, size, m);
      if k < |tmp| {
        s' := s.(file := s.file[At(m, size) + k := tmp[k]], workers := s.workers[t := CopyingBack(m, tmp, k + 1)]);
      } else {
        s' := s.(workers := s.workers[t := Claiming]);
      }
    case AtExit(_) =>
      s' := s.(workers := s.workers[t := Returned]);
  }

  // Steps a worker still has before it returns, not counting further claims.
  function Work(size: nat, w: Worker): nat {
    match w
    case Claiming => 2
    case Merging(_, i, j, _) => 4 + 2 * size + Left(i, size) + Left(j, size)
    case CopyingBack(_, tmp, k) => 3 + Left(k, |tmp|)
    case AtExit(_) => 1
    case Returned => 0
  }

  function Left(done: nat, total: nat): nat {
    if done <= total then total - done else 0
  }

  function WorkAt(size: nat): Worker -> nat {
    w => Work(size, w)
  }

  // Termination of every run: each step claims another pair or shortens the work in hand.
  lemma EveryStepProgresses(size: nat, count: nat, orig: seq<Record>, s: State, t: nat, s': State)
    requires Inv(size, count, orig, s) && Step(size, count, s, t, s')
    ensures s.next <= s'.next <= count
    ensures s'.next == s.next ==> Total(WorkAt(size), s'.workers) < Total(WorkAt(size), s.workers)
  {
    StepInv(size, count, orig, s, t, s');
    assert WorkerInv(size, count, orig, s, t);
    TotalUpdate(WorkAt(size), s.workers, t, s'.workers[t]);
    assert s'.workers == s.workers[t := s'.workers[t]];
  }
}

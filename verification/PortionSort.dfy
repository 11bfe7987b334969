/** process_portion of sort_index.c: the globals, the thread phases under an arbitrary schedule
    and the rounds between them. */
module PortionSort {
  import opened IndexRecords
  import opened Segments
  import opened ThreadBarrier
  import opened Totals
  import opened MergeRounds
  import MergeBlocks
  import ST = SortThreads
  import MT = MergeThreads

  class Sorter {
    // The file: an 8-byte header, the records, and what is left when the size is not a multiple of 16.
    var header: nat
    const records: array<Record>
    const trailing: nat

    var gBlockCount: nat
    var gThreadCount: int
    var gBlockSize: nat
    var gNextBlock: nat
    var gBarrier: Barrier
    var gRecords: nat            // index of the first record of the mapped portion

    constructor (header: nat, records: array<Record>, trailing: nat)
      ensures this.header == header && this.records == records && this.trailing == trailing
    {
      this.header, this.records, this.trailing := header, records, trailing;
      gBlockCount, gThreadCount, gBlockSize, gNextBlock, gRecords := 1, 0, 0, 0, 0;
      gBarrier := Fresh(0);
    }

    // The mapped portion of n records.
    ghost function Portion(n: nat): seq<Record>
      requires gRecords + n <= records.Length
      reads this, records
    {
      Part(records[..], gRecords, n)
    }

    // Nothing outside the mapped portion differs from `file`.
    ghost predicate SameElsewhere(file: seq<Record>, n: nat)
      reads this, records
    {
      gRecords + n <= records.Length && SameOutside(file, records[..], gRecords, n)
    }

    ghost function SortState(n: nat, workers: seq<ST.Worker>, claims: seq<nat>): ST.State
      requires gRecords + n <= records.Length
      reads this, records
    {
      ST.State(Portion(n), gNextBlock, gBarrier, workers, claims)
    }

    // One step of thread t of thread_sort; `workers` are the threads' program points and locals.
    method ThreadSortStep(t: nat, n: nat, workers: seq<ST.Worker>, ghost claims: seq<nat>)
      returns (workers': seq<ST.Worker>, ghost claims': seq<nat>)
      requires gRecords + n <= records.Length
      requires ST.CanStep(SortState(n, workers, claims), t)
      requires workers[t].Sorting? ==> At(workers[t].block, gBlockSize) + gBlockSize <= n && |workers[t].before| == gBlockSize
      modifies this`gNextBlock, this`gBarrier, records
      ensures ST.Step(gBlockSize, gBlockCount, old(SortState(n, workers, claims)), t, SortState(n, workers', claims'))
      ensures workers' != workers
      ensures SameElsewhere(old(records[..]), n)
    {
      claims' := claims;
      match workers[t] {
        case Starting =>
          workers' := workers[t := ST.AtGate(gBarrier.generation)];
          gBarrier := gBarrier.Arrive(t);
        case AtGate(_) =>
          workers' := workers[t := ST.Claiming];
        case Claiming =>
          if gNextBlock < gBlockCount {
            var b := gNextBlock;
            gNextBlock := gNextBlock + 1;
            claims' := claims + [b];
            var writes: nat := *;
            workers' := workers[t := ST.Sorting(b, Block(Part(records[..], gRecords, n), b, gBlockSize), writes)];
          } else {
            workers' := workers[t := ST.AtExit(gBarrier.generation)];
            gBarrier := gBarrier.Arrive(t);
          }
        case Sorting(b, before, writes) =>
          var finished: bool := *;
          if writes > 0 && !finished {
            WriteInBlock(b, n);
            workers' := workers[t := ST.Sorting(b, before, writes - 1)];
          } else {
            SortBlock(b, before, n);
            workers' := workers[t := ST.Claiming];
          }
        case AtExit(_) =>
          workers' := workers[t := ST.Returned];
      }
      assert workers'[t] != workers[t];
    }

    // The qsort call of thread_sort on block b is at work, while other threads have had turns.
    method WriteInBlock(b: nat, n: nat)
      requires gRecords + n <= records.Length && At(b, gBlockSize) + gBlockSize <= n
      modifies records
      ensures SameOutside(old(Portion(n)), Portion(n), At(b, gBlockSize), gBlockSize)
      ensures SameElsewhere(old(records[..]), n)
    {
      ghost var was := records[..];
      AtIsProduct(b, gBlockSize);
      MergeBlocks.QSortAtWork(records, gRecords + b * gBlockSize, gBlockSize);
      InPortion(was, records[..], gRecords, n, At(b, gBlockSize), gBlockSize);
    }

    // It returns.
    method SortBlock(b: nat, before: seq<Record>, n: nat)
      requires gRecords + n <= records.Length && At(b, gBlockSize) + gBlockSize <= n && |before| == gBlockSize
      modifies records
      ensures SameOutside(old(Portion(n)), Portion(n), At(b, gBlockSize), gBlockSize)
      ensures SortedPermutationOf(before, Block(Portion(n), b, gBlockSize))
      ensures SameElsewhere(old(records[..]), n)
    {
      ghost var was := records[..];
      AtIsProduct(b, gBlockSize);
      MergeBlocks.QSort(records, gRecords + b * gBlockSize, before);
      InPortion(was, records[..], gRecords, n, At(b, gBlockSize), gBlockSize);
    }

    // A change of `size` records inside a portion, seen from the portion and from the file.
    static lemma InPortion(was: seq<Record>, now: seq<Record>, base: nat, n: nat, lo: nat, size: nat)
      requires lo + size <= n && base + n <= |was|
      requires SameOutside(was, now, base + lo, size)
      ensures SameOutside(was, now, base, n)
      ensures SameOutside(Part(was, base, n), Part(now, base, n), lo, size)
      ensures Part(Part(was, base, n), lo, size) == Part(was, base + lo, size)
      ensures Part(Part(now, base, n), lo, size) == Part(now, base + lo, size)
    {
      PartOfPart(was, base, n, lo, size);
      PartOfPart(now, base, n, lo, size);
    }

    // What the globals and the threads' locals satisfy while the sort phase runs.
    ghost predicate SortPhase(n: nat, orig: seq<Record>, workers: seq<ST.Worker>, claims: seq<nat>)
      reads this, records
    {
      && gRecords + n <= records.Length && |workers| == gThreadCount
      && ST.Inv(gBlockSize, gBlockCount, orig, SortState(n, workers, claims))
    }

    static lemma {:induction false} SortingInBounds(size: nat, count: nat, orig: seq<Record>, s: ST.State, t: nat)
      requires ST.Inv(size, count, orig, s) && t < |s.workers|
      ensures s.workers[t].Sorting? ==> At(s.workers[t].block, size) + size <= |s.file| && |s.workers[t].before| == size
    {
      assert ST.WorkerInv(size, count, orig, s, t);
      if s.workers[t].Sorting? {
        AtMonotone(s.workers[t].block, count, size);
      }
    }

    // The scheduler runs any thread that can run.
    method SortTurn(n: nat, ghost orig: seq<Record>, workers: seq<ST.Worker>, ghost claims: seq<nat>)
      returns (workers': seq<ST.Worker>, ghost claims': seq<nat>)
      requires SortPhase(n, orig, workers, claims)
      requires exists t :: 0 <= t < |workers| && !workers[t].Returned?
      modifies this`gNextBlock, this`gBarrier, records
      ensures SortPhase(n, orig, workers', claims')
      ensures SameElsewhere(old(records[..]), n)
      ensures old(gNextBlock) <= gNextBlock <= gBlockCount
      ensures gNextBlock == old(gNextBlock) ==> Total(ST.Work, workers') < Total(ST.Work, workers)
    {
      ghost var s := SortState(n, workers, claims);
      ghost var u: nat :| u < |workers| && !workers[u].Returned?;
      ST.SomeThreadCanStep(gBlockSize, gBlockCount, orig, s, u);
      assert exists v, next :: ST.Step(gBlockSize, gBlockCount, s, v, next);
      var t: nat :| t < |workers| && ST.Runnable(gBarrier, workers[t]);
      SortingInBounds(gBlockSize, gBlockCount, orig, s, t);
      workers', claims' := ThreadSortStep(t, n, workers, claims);
      ghost var s' := SortState(n, workers', claims');
      ST.StepInv(gBlockSize, gBlockCount, orig, s, t, s');
      ST.EveryStepProgresses(gBlockSize, gBlockCount, orig, s, t, s');
    }

    // The g_thread_count threads of thread_sort, from creation to join, in any schedule.
    method RunSortThreads(n: nat)
      requires gRecords + n <= records.Length && n == At(gBlockCount, gBlockSize)
      requires gThreadCount > 0 && gNextBlock == 0 && gBarrier == Fresh(gThreadCount)
      modifies this`gNextBlock, this`gBarrier, records
      ensures ST.BlocksSorted(gBlockSize, gBlockCount, old(Portion(n)), Portion(n))
      ensures SameElsewhere(old(records[..]), n)
    {
      ghost var orig := Portion(n);
      ghost var claims: seq<nat> := [];
      var workers := seq(gThreadCount, _ => ST.Starting);
      ST.InitialInv(gBlockSize, gBlockCount, orig, gThreadCount);
      assert SortState(n, workers, claims) == ST.Initial(orig, gThreadCount);
      while exists t :: 0 <= t < |workers| && !workers[t].Returned?
        invariant SortPhase(n, orig, workers, claims)
        invariant SameElsewhere(old(records[..]), n)
        decreases gBlockCount - gNextBlock, Total(ST.Work, workers)
      {
        workers, claims := SortTurn(n, orig, workers, claims);
      }
      ST.PastBarrierSorted(gBlockSize, gBlockCount, orig, SortState(n, workers, claims), 0);
    }

    ghost function MergeState(n: nat, workers: seq<MT.Worker>, claims: seq<nat>): MT.State
      requires gRecords + n <= records.Length
      reads this, records
    {
      MT.State(Portion(n), gNextBlock, gBarrier, workers, claims)
    }

    // Thread t is inside merge_blocks, before its memcpy.
    method MergeOneRecord(t: nat, n: nat, workers: seq<MT.Worker>, ghost claims: seq<nat>) returns (workers': seq<MT.Worker>)
      requires gRecords + n <= records.Length && t < |workers| && workers[t].Merging?
      requires workers[t].i < gBlockSize ==> At(workers[t].block, gBlockSize) + workers[t].i < n
      requires workers[t].j < gBlockSize ==> At(workers[t].block + 1, gBlockSize) + workers[t].j < n
      ensures MT.Step(gBlockSize, gBlockCount, MergeState(n, workers, claims), t, MergeState(n, workers', claims))
    {
      var w: MT.Worker := workers[t];
      var m, i, j, tmp := w.block, w.i, w.j, w.tmp;
      var left, right := m * gBlockSize, (m + 1) * gBlockSize;
      AtIsProduct(m, gBlockSize);
      AtIsProduct(m + 1, gBlockSize);
      if i < gBlockSize && j < gBlockSize {
        var l, r := records[gRecords + left + i], records[gRecords + right + j];
        if CmpIndex(l, r) <= 0 {
          workers' := workers[t := MT.Merging(m, i + 1, j, tmp + [l])];
        } else {
          workers' := workers[t := MT.Merging(m, i, j + 1, tmp + [r])];
        }
      } else if i < gBlockSize {
        workers' := workers[t := MT.Merging(m, i + 1, j, tmp + [records[gRecords + left + i]])];
      } else if j < gBlockSize {
        workers' := workers[t := MT.Merging(m, i, j + 1, tmp + [records[gRecords + right + j]])];
      } else {
        workers' := workers[t := MT.CopyingBack(m, tmp, 0)];
      }
    }

    // Thread t is inside the memcpy of merge_blocks.
    method CopyOneRecord(t: nat, n: nat, workers: seq<MT.Worker>, ghost claims: seq<nat>) returns (workers': seq<MT.Worker>)
      requires gRecords + n <= records.Length && t < |workers| && workers[t].CopyingBack?
      requires workers[t].k < |workers[t].tmp| ==> At(workers[t].block, gBlockSize) + workers[t].k < n
      modifies records
      ensures MT.Step(gBlockSize, gBlockCount, old(MergeState(n, workers, claims)), t, MergeState(n, workers', claims))
      ensures SameElsewhere(old(records[..]), n)
    {
      var w: MT.Worker := workers[t];
      var m, tmp, k := w.block, w.tmp, w.k;
      if k < |tmp| {
        AtIsProduct(m, gBlockSize);
        records[gRecords + m * gBlockSize + k] := tmp[k];
        workers' := workers[t := MT.CopyingBack(m, tmp, k + 1)];
        assert Portion(n) == old(Portion(n))[m * gBlockSize + k := tmp[k]];
      } else {
        workers' := workers[t := MT.Claiming];
      }
    }

    // One step of thread t of thread_merge.
    method ThreadMergeStep(t: nat, n: nat, workers: seq<MT.Worker>, ghost claims: seq<nat>)
      returns (workers': seq<MT.Worker>, ghost claims': seq<nat>)
      requires gRecords + n <= records.Length
      requires MT.CanStep(MergeState(n, workers, claims), t)
      requires InBounds(n, gBlockSize, workers[t])
      modifies this`gNextBlock, this`gBarrier, records
      ensures MT.Step(gBlockSize, gBlockCount, old(MergeState(n, workers, claims)), t, MergeState(n, workers', claims'))
      ensures SameElsewhere(old(records[..]), n)
    {
      claims' := claims;
      match workers[t] {
        case Claiming =>
          if gNextBlock + 1 < gBlockCount {
            var m := gNextBlock;
            gNextBlock := gNextBlock + 2;
            claims' := claims + [m];
            workers' := workers[t := MT.Merging(m, 0, 0, [])];
          } else {
            workers' := workers[t := MT.AtExit(gBarrier.generation)];
            gBarrier := gBarrier.Arrive(t);
          }
        case Merging(_, _, _, _) =>
          workers' := MergeOneRecord(t, n, workers, claims);
        case CopyingBack(_, _, _) =>
          workers' := CopyOneRecord(t, n, workers, claims);
        case AtExit(_) =>
          workers' := workers[t := MT.Returned];
      }
    }

    static predicate InBounds(n: nat, size: nat, w: MT.Worker) {
      && (w.Merging? && w.i < size ==> At(w.block, size) + w.i < n)
      && (w.Merging? && w.j < size ==> At(w.block + 1, size) + w.j < n)
      && (w.CopyingBack? && w.k < |w.tmp| ==> At(w.block, size) + w.k < n)
    }

    static lemma MergingInBounds(size: nat, count: nat, orig: seq<Record>, s: MT.State, t: nat)
      requires MT.Inv(size, count, orig, s) && t < |s.workers|
      ensures InBounds(|s.file|, size, s.workers[t])
    {
      assert MT.WorkerInv(size, count, orig, s, t);
      if s.workers[t].Merging? || s.workers[t].CopyingBack? {
        MT.PairInBounds(count, size, s.workers[t].block);
      }
    }

    ghost predicate MergePhase(n: nat, orig: seq<Record>, workers: seq<MT.Worker>, claims: seq<nat>)
      reads this, records
    {
      && gRecords + n <= records.Length && |workers| == gThreadCount
      && MT.Inv(gBlockSize, gBlockCount, orig, MergeState(n, workers, claims))
    }

    method MergeTurn(n: nat, ghost orig: seq<Record>, workers: seq<MT.Worker>, ghost claims: seq<nat>)
      returns (workers': seq<MT.Worker>, ghost claims': seq<nat>)
      requires MergePhase(n, orig, workers, claims)
      requires exists t :: 0 <= t < |workers| && !workers[t].Returned?
      modifies this`gNextBlock, this`gBarrier, records
      ensures MergePhase(n, orig, workers', claims')
      ensures SameElsewhere(old(records[..]), n)
      ensures old(gNextBlock) <= gNextBlock <= gBlockCount
      ensures gNextBlock == old(gNextBlock) ==> Total(MT.WorkAt(gBlockSize), workers') < Total(MT.WorkAt(gBlockSize), workers)
    {
      ghost var s := MergeState(n, workers, claims);
      ghost var u: nat :| u < |workers| && !workers[u].Returned?;
      MT.SomeThreadCanStep(gBlockSize, gBlockCount, orig, s, u);
      var t: nat :| t < |workers| && MT.Runnable(gBarrier, workers[t]);
      MergingInBounds(gBlockSize, gBlockCount, orig, s, t);
      workers', claims' := ThreadMergeStep(t, n, workers, claims);
      ghost var s' := MergeState(n, workers', claims');
      MT.StepInv(gBlockSize, gBlockCount, orig, s, t, s');
      MT.EveryStepProgresses(gBlockSize, gBlockCount, orig, s, t, s');
    }

    // The g_thread_count threads of thread_merge for one round, in any schedule.
    method RunMergeThreads(n: nat)
      requires gRecords + n <= records.Length && n == At(gBlockCount, gBlockSize)
      requires gThreadCount > 0 && gNextBlock == 0 && gBarrier == Fresh(gThreadCount)
      modifies this`gNextBlock, this`gBarrier, records
      ensures MT.RoundDone(gBlockSize, gBlockCount, old(Portion(n)), Portion(n))
      ensures SameElsewhere(old(records[..]), n)
    {
      ghost var orig := Portion(n);
      ghost var claims: seq<nat> := [];
      var workers := seq(gThreadCount, _ => MT.Claiming);
      MT.InitialInv(gBlockSize, gBlockCount, orig, gThreadCount);
      assert MergeState(n, workers, claims) == MT.Initial(orig, gThreadCount);
      while exists t :: 0 <= t < |workers| && !workers[t].Returned?
        invariant MergePhase(n, orig, workers, claims)
        invariant SameElsewhere(old(records[..]), n)
        decreases gBlockCount - gNextBlock, Total(MT.WorkAt(gBlockSize), workers)
      {
        workers, claims := MergeTurn(n, orig, workers, claims);
      }
      MT.PastBarrierMerged(gBlockSize, gBlockCount, orig, MergeState(n, workers, claims), 0);
    }

    // One round, up to the new block count and size.
    method MergeRound(n: nat, ghost blockSorted: seq<Record>)
      requires gRecords + n <= records.Length && n == At(gBlockCount, gBlockSize)
      requires gThreadCount > 0 && gBlockCount % 2 == 0
      requires StablyBlocked(blockSorted, Portion(n), gBlockSize, gBlockCount)
      modifies this`gNextBlock, this`gBarrier, records
      ensures StablyBlocked(blockSorted, Portion(n), 2 * gBlockSize, gBlockCount / 2)
      ensures n == At(gBlockCount / 2, 2 * gBlockSize)
      ensures SameElsewhere(old(records[..]), n)
    {
      ghost var file := Portion(n);
      gNextBlock := 0;
      gBarrier := Fresh(gThreadCount);
      RunMergeThreads(n);
      RoundHalves(blockSorted, file, Portion(n), gBlockSize, gBlockCount);
      AtDoubled(gBlockCount / 2, gBlockSize);
    }

    // The rounds of process_portion, from sorted blocks to one sorted run.
    method RunMergeRounds(n: nat, ghost blockSorted: seq<Record>)
      requires gRecords + n <= records.Length && n == At(gBlockCount, gBlockSize)
      requires gThreadCount > 0 && IsPowerOfTwo(gBlockCount)
      requires StablyBlocked(blockSorted, Portion(n), gBlockSize, gBlockCount)
      modifies this`gNextBlock, this`gBarrier, this`gBlockCount, this`gBlockSize, records
      ensures gBlockCount == 1 && gBlockSize == n
      ensures StableSortOf(blockSorted, Portion(n))
      ensures SameElsewhere(old(records[..]), n)
    {
      var currentBlockCount := gBlockCount;
      while currentBlockCount > 1
        invariant currentBlockCount == gBlockCount && IsPowerOfTwo(gBlockCount) && n == At(gBlockCount, gBlockSize)
        invariant StablyBlocked(blockSorted, Portion(n), gBlockSize, gBlockCount)
        invariant SameElsewhere(old(records[..]), n)
      {
        MergeRound(n, blockSorted);
        currentBlockCount := currentBlockCount / 2;
        gBlockCount := currentBlockCount;
        gBlockSize := gBlockSize * 2;
      }
      assert At(1, gBlockSize) == At(0, gBlockSize) + gBlockSize;
      OneBlockIsAll(blockSorted, Portion(n), gBlockSize);
    }

    // The part of process_portion after its checks: sort phase, then rounds.
    method SortMappedPortion(n: nat) returns (ghost blockSorted: seq<Record>)
      requires gRecords + n <= records.Length && gThreadCount > 0 && IsPowerOfTwo(gBlockCount)
      requires n % gBlockCount == 0 && gBlockSize == n / gBlockCount
      modifies this`gNextBlock, this`gBarrier, this`gBlockCount, this`gBlockSize, records
      ensures gBlockCount == 1
      ensures SameElsewhere(old(records[..]), n)
      ensures PortionSorted(old(gBlockCount), old(Portion(n)), blockSorted, Portion(n))
    {
      ghost var orig, count, size := Portion(n), gBlockCount, gBlockSize;
      assert n == At(gBlockCount, gBlockSize) by { AtIsProduct(gBlockCount, gBlockSize); }
      gNextBlock := 0;
      gBarrier := Fresh(gThreadCount);
      RunSortThreads(n);
      blockSorted := Portion(n);
      SortedBlocksStart(blockSorted, orig, size, count);
      RunMergeRounds(n, blockSorted);
    }

    function FileSize(): nat {
      HEADER_SIZE + RECORD_SIZE * records.Length + trailing
    }

    // process_portion. `blockSorted` is the portion between the block-sort phase and the rounds.
    method ProcessPortion(currentOffset: nat, portionBytes: nat)
      returns (status: Status, portionRecords: nat, ghost blockSorted: seq<Record>)
      requires currentOffset + portionBytes <= FileSize() && trailing < RECORD_SIZE
      requires currentOffset == 0 || (currentOffset >= HEADER_SIZE && (currentOffset - HEADER_SIZE) % RECORD_SIZE == 0)
      requires IsPowerOfTwo(gBlockCount)
      modifies this`gNextBlock, this`gBarrier, this`gBlockCount, this`gBlockSize, this`gRecords, records
      ensures status == Refused <==> !PortionAccepted(currentOffset, portionBytes, old(gBlockCount))
      ensures status == BarrierFault <==> PortionAccepted(currentOffset, portionBytes, old(gBlockCount)) && gThreadCount <= 0
      ensures status != Done ==> records[..] == old(records[..]) && gBlockCount == old(gBlockCount)
      ensures status == Done ==> gBlockCount == 1
      ensures status == Done ==> portionRecords == PortionRecords(currentOffset, portionBytes)
      ensures status == Done ==> gRecords == (PortionStart(currentOffset) - HEADER_SIZE) / RECORD_SIZE
      ensures status == Done ==> SameElsewhere(old(records[..]), portionRecords)
      ensures status == Done ==>
        PortionSorted(old(gBlockCount), Part(old(records[..]), gRecords, portionRecords), blockSorted, Portion(portionRecords))
    {
      status, portionRecords, blockSorted := Refused, 0, [];
      var start: nat, recs: nat;
      if currentOffset == 0 {
        start := HEADER_SIZE;
        if portionBytes < HEADER_SIZE {
          return;
        }
        recs := (portionBytes - HEADER_SIZE) / RECORD_SIZE;
      } else {
        start := currentOffset;
        recs := portionBytes / RECORD_SIZE;
      }
      if portionBytes % RECORD_SIZE != 0 && currentOffset != 0 {
        return;
      }
      gRecords := (start - HEADER_SIZE) / RECORD_SIZE;
      if recs % gBlockCount != 0 {
        return;
      }
      assert gRecords + recs <= records.Length;
      gBlockSize := recs / gBlockCount;
      if gThreadCount <= 0 {
        return BarrierFault, 0, [];
      }
      blockSorted := SortMappedPortion(recs);
      status, portionRecords := Done, recs;
    }
  }

  // What becomes of a portion. BarrierFault: pthread_barrier_init refuses a count of 0, or one so
  // large as a negative int becomes; its result is ignored, no thread is created, and the barrier
  // that was never initialised is destroyed, which is undefined.
  datatype Status = Done | Refused | BarrierFault

  const HEADER_SIZE := 8    // sizeof(uint64_t)
  const RECORD_SIZE := 16   // sizeof(index_record)

  // The first byte of the portion's records and their number, as process_portion computes them.
  function PortionStart(currentOffset: nat): nat {
    if currentOffset == 0 then HEADER_SIZE else currentOffset
  }

  function PortionRecords(currentOffset: nat, portionBytes: nat): nat {
    if currentOffset == 0 then (if portionBytes < HEADER_SIZE then 0 else (portionBytes - HEADER_SIZE) / RECORD_SIZE)
    else portionBytes / RECORD_SIZE
  }

  predicate PortionAccepted(currentOffset: nat, portionBytes: nat, blockCount: nat)
    requires blockCount > 0
  {
    && (currentOffset == 0 ==> portionBytes >= HEADER_SIZE)
    && (currentOffset != 0 ==> portionBytes % RECORD_SIZE == 0)
    && PortionRecords(currentOffset, portionBytes) % blockCount == 0
  }

  // A portion that entered as `orig` with `count` blocks has had its blocks sorted.
  ghost predicate BlockSorted(count: nat, orig: seq<Record>, blockSorted: seq<Record>) {
    count > 0 && |orig| == At(count, |orig| / count) && ST.BlocksSorted(|orig| / count, count, orig, blockSorted)
  }

  // And it ended as the stable sort of that.
  ghost predicate PortionSorted(count: nat, orig: seq<Record>, blockSorted: seq<Record>, file: seq<Record>) {
    BlockSorted(count, orig, blockSorted) && StableSortOf(blockSorted, file)
  }

  lemma PortionSortedPermutes(count: nat, orig: seq<Record>, blockSorted: seq<Record>, file: seq<Record>)
    requires PortionSorted(count, orig, blockSorted, file)
    ensures Sorted(file) && Permutation(orig, file) && |file| == |orig|
  {
    BlocksPermute(|orig| / count, count, orig, blockSorted);
    SameOrderPermutes(blockSorted, file);
  }
}

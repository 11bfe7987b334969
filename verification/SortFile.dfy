/** main of sort_index.c: argument checks, the portion loop, the external merge. */
module SortFile {
  import opened IndexRecords
  import opened Segments
  import opened MergeRounds
  import opened MergeBlocks
  import opened PortionSort
  import opened ExternalMerge

  // DivideByZero: memsize 0 passes the page-size check and reaches the division for max_runs.
  // BadBarrier: no thread, in a portion that is otherwise accepted (Status.BarrierFault).
  datatype Outcome = Success | Refusal | DivideByZero | BadBarrier

  predicate ArgsAccepted(pageSize: nat, memsize: nat, blocks: int, threads: int)
    requires pageSize > 0
  {
    memsize % pageSize == 0 && blocks > 0 && IsPowerOfTwo(blocks) && blocks >= threads * 4
  }

  function Smaller(x: nat, y: nat): nat {
    if x <= y then x else y
  }

  // The first portion passes its checks: whole records, which split into `blocks` blocks.
  predicate FirstPortionAccepted(records: nat, trailing: nat, memsize: nat, blocks: nat)
    requires blocks > 0
  {
    var data := RECORD_SIZE * records + trailing;
    data > 0 && Smaller(memsize, data) % RECORD_SIZE == 0 && (Smaller(memsize, data) / RECORD_SIZE) % blocks == 0
  }

  // Which data regions get through the portion loop, given a thread: none, or whole records with
  // such a first portion (every later portion is one block).
  predicate DataAccepted(records: nat, trailing: nat, memsize: nat, blocks: nat)
    requires blocks > 0
  {
    trailing == 0 && (records == 0 || FirstPortionAccepted(records, trailing, memsize, blocks))
  }

  ghost function BlockSortedBy(count: nat): RunProperty {
    (orig, src) => BlockSorted(count, orig, src)
  }

  // src is orig with the portions block-sorted: the first in `blocks` blocks, later ones whole.
  ghost predicate PortionsBlockSorted(portions: Runs, blocks: nat, orig: seq<Record>, src: seq<Record>) {
    FirstAndLater(BlockSortedBy(blocks), BlockSortedBy(1), portions, orig, src)
  }

  function MaxRuns(data: nat, memsize: nat): nat
    requires memsize > 0
  {
    (data + memsize - 1) / memsize
  }

  // max_runs counts exactly the portions of `memsize` bytes that `data` bytes need.
  lemma {:induction false} CeilingBound(data: nat, memsize: nat, runs: nat)
    requires memsize > 0
    ensures At(runs, memsize) < data <==> runs < MaxRuns(data, memsize)
  {
    var q := MaxRuns(data, memsize);
    AtIsProduct(q, memsize);
    assert q * memsize <= data + memsize - 1 < q * memsize + memsize;
    if runs < q {
      AtMonotone(runs, q, memsize);
    } else {
      AtMonotone(q, runs, memsize);
    }
  }

  // Portion i of `data` bytes, as the run table records it: memsize bytes, or what is left.
  function PortionRun(i: nat, data: nat, memsize: nat): Run {
    var rest := if i * memsize <= data then data - i * memsize else 0;
    Run(HEADER_SIZE + i * memsize, Smaller(memsize, rest) / RECORD_SIZE)
  }

  predicate TableOf(runs: seq<Run>, data: nat, memsize: nat) {
    forall i :: 0 <= i < |runs| ==> runs[i] == PortionRun(i, data, memsize)
  }

  lemma {:induction false} TableAppend(runs: seq<Run>, at: nat, data: nat, memsize: nat)
    requires TableOf(runs, data, memsize) && RECORD_SIZE * at == At(|runs|, memsize) <= data
    ensures TableOf(runs + [Run(ByteOf(at), Smaller(memsize, data - RECORD_SIZE * at) / RECORD_SIZE)], data, memsize)
  {
    AtIsProduct(|runs|, memsize);
  }

  // The state of the portion loop with `at` records done in the runs so far.
  ghost predicate LoopInv(runs: seq<Run>, at: nat, blocks: nat, orig: seq<Record>, src: seq<Record>, file: seq<Record>) {
    && Tabled(Table(runs), 0, at) && at <= |orig| == |src| == |file|
    && SameOutside(orig, file, 0, at) && Permutation(orig, file)
    && EachRun(StableSortOf, Table(runs), 0, src, file) && PortionsBlockSorted(Table(runs), blocks, orig, src)
  }

  // A portion has been processed: the table, the records done and src move on together.
  lemma AddPortion(runs: seq<Run>, at: nat, r: Run, count: nat, blocks: nat, orig: seq<Record>, src: seq<Record>,
                   file: seq<Record>, file': seq<Record>, blockSorted: seq<Record>)
    returns (runs': seq<Run>, at': nat, src': seq<Record>)
    requires blocks > 0 && LoopInv(runs, at, blocks, orig, src, file)
    requires r.offset == ByteOf(at) && at + r.nrecords <= |file| && SameOutside(file, file', at, r.nrecords)
    requires count == if runs == [] then blocks else 1
    requires PortionSorted(count, Part(file, at, r.nrecords), blockSorted, Part(file', at, r.nrecords))
    ensures runs' == runs + [r] && at' == at + r.nrecords
    ensures LoopInv(runs', at', blocks, orig, src', file')
  {
    var n := r.nrecords;
    runs', at', src' := runs + [r], at + r.nrecords, Replaced(src, at, blockSorted);
    TabledAppend(runs, 0, at, r);
    PortionSortedPermutes(count, Part(file, at, n), blockSorted, Part(file', at, n));
    PartsPermute(file, file', at, n);
    SortedPortionAdded(runs, at, r, count, blocks, orig, src, file, file', blockSorted);
  }

  lemma {:induction false} SortedPortionAdded(runs: seq<Run>, at: nat, r: Run, count: nat, blocks: nat, orig: seq<Record>, src: seq<Record>,
                           file: seq<Record>, file': seq<Record>, blockSorted: seq<Record>)
    requires blocks > 0 && LoopInv(runs, at, blocks, orig, src, file)
    requires r.offset == ByteOf(at) && at + r.nrecords <= |file| && SameOutside(file, file', at, r.nrecords)
    requires count == if runs == [] then blocks else 1
    requires PortionSorted(count, Part(file, at, r.nrecords), blockSorted, Part(file', at, r.nrecords))
    ensures |blockSorted| == r.nrecords
    ensures EachRun(StableSortOf, Table(runs + [r]), 0, Replaced(src, at, blockSorted), file')
    ensures PortionsBlockSorted(Table(runs + [r]), blocks, orig, Replaced(src, at, blockSorted))
  {
    var n, src' := r.nrecords, Replaced(src, at, blockSorted);
    ReplacedPart(src, at, blockSorted);
    assert Part(orig, at, n) == Part(file, at, n);
    OutsideKept(file, file', at, n);
    OutsideKept(src, src', at, n);
    EachFrame(StableSortOf, Table(runs), 0, at, src, src', file, file', at, n);
    EachAppend(StableSortOf, runs, 0, at, r, src', file');
    FirstAndLaterFrame(BlockSortedBy(blocks), BlockSortedBy(1), Table(runs), at, orig, src, src', n);
    FirstAndLaterAppend(BlockSortedBy(blocks), BlockSortedBy(1), runs, at, r, orig, src');
  }

  // What the portion loop knows of its counters when `at` records are done in runCount runs.
  ghost predicate Counters(at: nat, runCount: nat, blockCount: nat, records: nat, trailing: nat, memsize: nat, blocks: nat, threads: int)
    requires memsize > 0 && blocks > 0
  {
    var data := RECORD_SIZE * records + trailing;
    && at <= records
    && (at < records || trailing > 0 ==> RECORD_SIZE * at == At(runCount, memsize))
    && (at == records && trailing == 0 ==> runCount == MaxRuns(data, memsize))
    && (runCount == 0 <==> at == 0)
    && IsPowerOfTwo(blockCount) && blockCount == (if at == 0 then blocks else 1)
    && (at > 0 ==> threads > 0 && (Smaller(memsize, data) / RECORD_SIZE) % blocks == 0)
  }

  // The portions sorted when the loop gives up: all but the last, once the first has passed.
  function DoneBefore(records: nat, trailing: nat, memsize: nat, blocks: nat, threads: int): int
    requires memsize > 0 && blocks > 0
  {
    if threads > 0 && FirstPortionAccepted(records, trailing, memsize, blocks) then MaxRuns(RECORD_SIZE * records + trailing, memsize) - 1
    else 0
  }

  // The loop has given up: each of these portions is sorted, and every record after them is as it was.
  ghost predicate GivenUp(portions: seq<Run>, trailing: nat, memsize: nat, blocks: nat, threads: int,
                          orig: seq<Record>, src: seq<Record>, file: seq<Record>)
    requires memsize > 0 && blocks > 0
  {
    && |portions| == DoneBefore(|orig|, trailing, memsize, blocks, threads)
    && TableOf(portions, RECORD_SIZE * |orig| + trailing, memsize)
    && LoopInv(portions, At(|portions|, memsize / RECORD_SIZE), blocks, orig, src, file)
  }

  // The records in n portions of memsize bytes.
  lemma {:induction false} WholePortions(n: nat, memsize: nat)
    requires memsize % RECORD_SIZE == 0
    ensures RECORD_SIZE * At(n, memsize / RECORD_SIZE) == At(n, memsize)
  {
    if n > 0 {
      WholePortions(n - 1, memsize);
    }
  }

  lemma {:induction false} NothingDone(portions: seq<Run>, trailing: nat, memsize: nat, blocks: nat, threads: int,
                                       orig: seq<Record>, src: seq<Record>, file: seq<Record>)
    requires memsize > 0 && blocks > 0 && GivenUp(portions, trailing, memsize, blocks, threads, orig, src, file)
    ensures threads <= 0 || !FirstPortionAccepted(|orig|, trailing, memsize, blocks) ==> file == orig
  {
  }

  // A turn that refuses its portion: the first one or the last.
  lemma {:induction false} RefusedTurn(at: nat, runCount: nat, blockCount: nat, records: nat, trailing: nat, memsize: nat, blocks: nat,
                                       threads: int, portionBytes: nat)
    requires memsize > 0 && memsize % RECORD_SIZE == 0 && blocks > 0 && trailing < RECORD_SIZE
    requires Counters(at, runCount, blockCount, records, trailing, memsize, blocks, threads)
    requires at < records || trailing > 0
    requires portionBytes == Smaller(memsize, RECORD_SIZE * records + trailing - RECORD_SIZE * at)
    requires !PortionAccepted(ByteOf(at), portionBytes, blockCount) || threads <= 0
    ensures runCount == DoneBefore(records, trailing, memsize, blocks, threads) && at == At(runCount, memsize / RECORD_SIZE)
  {
    WholePortions(runCount, memsize);
    if runCount > 0 {
      AtMonotone(1, runCount, memsize);
      CeilingBound(RECORD_SIZE * records + trailing, memsize, runCount);
      CeilingBound(RECORD_SIZE * records + trailing, memsize, runCount + 1);
    }
  }

  // One turn of the portion loop either refuses, as the conditions foresee, or advances.
  lemma CountersTurn(at: nat, runCount: nat, blockCount: nat, records: nat, trailing: nat, memsize: nat, blocks: nat, threads: int, portionBytes: nat)
    requires memsize > 0 && memsize % RECORD_SIZE == 0 && blocks > 0 && trailing < RECORD_SIZE
    requires Counters(at, runCount, blockCount, records, trailing, memsize, blocks, threads)
    requires at < records || trailing > 0
    requires portionBytes == Smaller(memsize, RECORD_SIZE * records + trailing - RECORD_SIZE * at)
    ensures runCount < MaxRuns(RECORD_SIZE * records + trailing, memsize)
    ensures !PortionAccepted(ByteOf(at), portionBytes, blockCount) ==>
              !DataAccepted(records, trailing, memsize, blocks) &&
              (threads > 0 || !FirstPortionAccepted(records, trailing, memsize, blocks))
    ensures PortionAccepted(ByteOf(at), portionBytes, blockCount) && threads <= 0 ==>
              FirstPortionAccepted(records, trailing, memsize, blocks)
    ensures PortionAccepted(ByteOf(at), portionBytes, blockCount) && threads > 0 ==>
              portionBytes == RECORD_SIZE * (portionBytes / RECORD_SIZE) &&
              Counters(at + portionBytes / RECORD_SIZE, runCount + 1, 1, records, trailing, memsize, blocks, threads)
  {
    var data := RECORD_SIZE * records + trailing;
    CeilingBound(data, memsize, runCount);
    CeilingBound(data, memsize, runCount + 1);
  }

  lemma CountersDone(runCount: nat, blockCount: nat, records: nat, memsize: nat, blocks: nat, threads: int)
    requires memsize > 0 && memsize % RECORD_SIZE == 0 && blocks > 0
    requires Counters(records, runCount, blockCount, records, 0, memsize, blocks, threads)
    ensures DataAccepted(records, 0, memsize, blocks) && (records > 0 ==> threads > 0)
  {
  }

  // The portion loop of main. On success the run table is filled to its last entry, and lists
  // the portions that memsize cuts.
  method SortPortions(file: Sorter, memsize: nat, blocks: nat, runs: array<Run>)
    returns (status: Status, ghost src: seq<Record>, ghost table: seq<Run>)
    requires file.trailing < RECORD_SIZE && memsize > 0 && memsize % RECORD_SIZE == 0
    requires IsPowerOfTwo(blocks) && file.gBlockCount == blocks
    requires runs.Length == MaxRuns(file.FileSize() - HEADER_SIZE, memsize)
    modifies file`gNextBlock, file`gBarrier, file`gBlockCount, file`gBlockSize, file`gRecords, file.records, runs
    ensures status == Done <==> DataAccepted(file.records.Length, file.trailing, memsize, blocks) &&
                                (file.records.Length > 0 ==> file.gThreadCount > 0)
    ensures status == BarrierFault <==> FirstPortionAccepted(file.records.Length, file.trailing, memsize, blocks) &&
                                        file.gThreadCount <= 0
    ensures Permutation(old(file.records[..]), file.records[..])
    ensures status != Done ==>
              GivenUp(table, file.trailing, memsize, blocks, file.gThreadCount, old(file.records[..]), src, file.records[..])
    ensures status == Done ==> LoopInv(runs[..], file.records.Length, blocks, old(file.records[..]), src, file.records[..])
    ensures status == Done ==> TableOf(runs[..], RECORD_SIZE * file.records.Length, memsize)
  {
    ghost var orig, threads := file.records[..], file.gThreadCount;
    src := orig;
    var runCount, currentOffset := 0, HEADER_SIZE;
    table := [];
    ghost var at: nat, now: seq<Record> := 0, orig;
    CeilingBound(file.FileSize() - HEADER_SIZE, memsize, 0);
    while currentOffset < file.FileSize()
      invariant currentOffset == ByteOf(at) && runCount == |table| <= runs.Length
      invariant file.records[..] == now && runs[..runCount] == table
      invariant PortionsDone(table, at, orig, src, now, file.gBlockCount, file.trailing, memsize, blocks, threads)
    {
      var portionBytes;
      status, portionBytes, at, now, table, src := PortionTurn(file, memsize, currentOffset, runs, runCount, at, table, blocks, orig, src);
      if status != Done {
        return;
      }
      runCount := runCount + 1;
      currentOffset := currentOffset + portionBytes;
    }
    CountersDone(runCount, file.gBlockCount, |orig|, memsize, blocks, threads);
    assert runs[..runCount] == runs[..];
    status := Done;
  }

  // What the portion loop keeps, of the file and of its counters.
  ghost predicate PortionsDone(table: seq<Run>, at: nat, orig: seq<Record>, src: seq<Record>, now: seq<Record>,
                               blockCount: nat, trailing: nat, memsize: nat, blocks: nat, threads: int)
    requires memsize > 0 && blocks > 0
  {
    && LoopInv(table, at, blocks, orig, src, now)
    && TableOf(table, RECORD_SIZE * |orig| + trailing, memsize)
    && Counters(at, |table|, blockCount, |orig|, trailing, memsize, blocks, threads)
  }

  // What a turn finds, and what it leaves for the next: the entry it adds is that of its portion.
  lemma TurnCounts(table: seq<Run>, at: nat, blockCount: nat, records: nat, trailing: nat, memsize: nat, blocks: nat, threads: int,
                   portionBytes: nat)
    requires memsize > 0 && memsize % RECORD_SIZE == 0 && blocks > 0 && trailing < RECORD_SIZE
    requires TableOf(table, RECORD_SIZE * records + trailing, memsize)
    requires Counters(at, |table|, blockCount, records, trailing, memsize, blocks, threads)
    requires at < records || trailing > 0
    requires portionBytes == Smaller(memsize, RECORD_SIZE * records + trailing - RECORD_SIZE * at)
    ensures |table| < MaxRuns(RECORD_SIZE * records + trailing, memsize)
    ensures !PortionAccepted(ByteOf(at), portionBytes, blockCount) ==>
              !DataAccepted(records, trailing, memsize, blocks) &&
              (threads > 0 || !FirstPortionAccepted(records, trailing, memsize, blocks))
    ensures PortionAccepted(ByteOf(at), portionBytes, blockCount) && threads <= 0 ==>
              FirstPortionAccepted(records, trailing, memsize, blocks)
    ensures PortionAccepted(ByteOf(at), portionBytes, blockCount) && threads > 0 ==>
              ByteOf(at) + portionBytes == ByteOf(at + portionBytes / RECORD_SIZE) &&
              TableOf(table + [Run(ByteOf(at), portionBytes / RECORD_SIZE)], RECORD_SIZE * records + trailing, memsize) &&
              Counters(at + portionBytes / RECORD_SIZE, |table| + 1, 1, records, trailing, memsize, blocks, threads)
    ensures !PortionAccepted(ByteOf(at), portionBytes, blockCount) || threads <= 0 ==>
              |table| == DoneBefore(records, trailing, memsize, blocks, threads) && at == At(|table|, memsize / RECORD_SIZE)
  {
    if !PortionAccepted(ByteOf(at), portionBytes, blockCount) || threads <= 0 {
      RefusedTurn(at, |table|, blockCount, records, trailing, memsize, blocks, threads, portionBytes);
    }
    CountersTurn(at, |table|, blockCount, records, trailing, memsize, blocks, threads, portionBytes);
    TableAppend(table, at, RECORD_SIZE * records + trailing, memsize);
  }

  // One turn of the portion loop.
  method PortionTurn(file: Sorter, memsize: nat, currentOffset: nat, runs: array<Run>, runCount: nat,
                     ghost at: nat, ghost table: seq<Run>, ghost blocks: nat, ghost orig: seq<Record>, ghost src: seq<Record>)
    returns (status: Status, portionBytes: nat, ghost at': nat, ghost now: seq<Record>, ghost table': seq<Run>, ghost src': seq<Record>)
    requires file.trailing < RECORD_SIZE && memsize > 0 && memsize % RECORD_SIZE == 0 && blocks > 0
    requires currentOffset == ByteOf(at) < file.FileSize() && |orig| == file.records.Length
    requires runs.Length == MaxRuns(file.FileSize() - HEADER_SIZE, memsize) && runCount == |table| <= runs.Length
    requires runs[..runCount] == table
    requires PortionsDone(table, at, orig, src, file.records[..], file.gBlockCount, file.trailing, memsize, blocks, file.gThreadCount)
    modifies file`gNextBlock, file`gBarrier, file`gBlockCount, file`gBlockSize, file`gRecords, file.records, runs
    ensures file.records[..] == now && Permutation(orig, now)
    ensures status == Refused ==> !DataAccepted(file.records.Length, file.trailing, memsize, blocks) &&
                                  (file.gThreadCount > 0 || !FirstPortionAccepted(file.records.Length, file.trailing, memsize, blocks))
    ensures status == BarrierFault ==> FirstPortionAccepted(file.records.Length, file.trailing, memsize, blocks) && file.gThreadCount <= 0
    ensures status != Done ==> GivenUp(table', file.trailing, memsize, blocks, file.gThreadCount, orig, src', now)
    ensures status == Done ==>
      && currentOffset + portionBytes == ByteOf(at') <= file.FileSize() && portionBytes > 0
      && runCount < runs.Length && |table'| == runCount + 1 && runs[..runCount + 1] == table'
      && PortionsDone(table', at', orig, src', now, file.gBlockCount, file.trailing, memsize, blocks, file.gThreadCount)
  {
    status, at', now, table', src' := Refused, at, file.records[..], table, src;
    var remaining := file.FileSize() - currentOffset;
    portionBytes := if remaining >= memsize then memsize else remaining;
    TurnCounts(table, at, file.gBlockCount, |orig|, file.trailing, memsize, blocks, file.gThreadCount, portionBytes);
    if currentOffset != HEADER_SIZE && portionBytes % RECORD_SIZE != 0 {
      return;
    }
    status, at', now, table', src' := EnterPortion(file, currentOffset, portionBytes, runs, runCount, at, table, blocks, orig, src);
  }

  // Sort one portion and enter it in the run table.
  method EnterPortion(file: Sorter, currentOffset: nat, portionBytes: nat, runs: array<Run>, runCount: nat,
                      ghost at: nat, ghost table: seq<Run>, ghost blocks: nat, ghost orig: seq<Record>, ghost src: seq<Record>)
    returns (status: Status, ghost at': nat, ghost now: seq<Record>, ghost table': seq<Run>, ghost src': seq<Record>)
    requires file.trailing < RECORD_SIZE && runCount < runs.Length && IsPowerOfTwo(file.gBlockCount) && blocks > 0
    requires currentOffset == ByteOf(at) && currentOffset + portionBytes <= file.FileSize()
    requires runs[..runCount] == table && (table == [] <==> at == 0)
    requires file.gBlockCount == if at == 0 then blocks else 1
    requires LoopInv(table, at, blocks, orig, src, file.records[..])
    modifies file`gNextBlock, file`gBarrier, file`gBlockCount, file`gBlockSize, file`gRecords, file.records, runs
    ensures status == Refused <==> !PortionAccepted(currentOffset, portionBytes, old(file.gBlockCount))
    ensures status == BarrierFault <==> PortionAccepted(currentOffset, portionBytes, old(file.gBlockCount)) && file.gThreadCount <= 0
    ensures file.records[..] == now
    ensures status != Done ==> now == old(file.records[..]) && table' == table && src' == src
    ensures status == Done ==> at' == at + portionBytes / RECORD_SIZE && runs[..runCount + 1] == table' && file.gBlockCount == 1
    ensures status == Done ==> table' == table + [Run(currentOffset, portionBytes / RECORD_SIZE)]
    ensures status == Done ==> LoopInv(table', at', blocks, orig, src', now)
  {
    ghost var count, file0 := file.gBlockCount, file.records[..];
    var portionRecs;
    ghost var blockSorted;
    status, portionRecs, blockSorted := file.ProcessPortion(currentOffset, portionBytes);
    now, at', table', src' := file.records[..], at, table, src;
    if status == Done {
      var r := Run(currentOffset, portionRecs);
      assert file.gRecords == at && SameOutside(file0, now, at, portionRecs);
      table', at', src' := AddPortion(table, at, r, count, blocks, orig, src, file0, now, blockSorted);
      runs[runCount] := r;
    }
  }

  // main. Whatever the schedule, success leaves the file sorted: it is the stable sort of src,
  // which is the file with the portions that memsize cuts block-sorted.
  method SortIndexFile(file: Sorter, pageSize: nat, memsize: nat, blocks: int, threads: int)
    returns (outcome: Outcome, ghost src: seq<Record>, ghost portions: seq<Run>)
    requires pageSize > 0 && pageSize % RECORD_SIZE == 0 && file.trailing < RECORD_SIZE
    modifies file, file.records
    ensures file.header == old(file.header)
    ensures Permutation(old(file.records[..]), file.records[..])
    ensures outcome == DivideByZero <==> ArgsAccepted(pageSize, memsize, blocks, threads) && memsize == 0
    ensures outcome == BadBarrier <==> ArgsAccepted(pageSize, memsize, blocks, threads) && memsize > 0 && threads <= 0 &&
                                       FirstPortionAccepted(file.records.Length, file.trailing, memsize, blocks)
    ensures outcome == Success <==> ArgsAccepted(pageSize, memsize, blocks, threads) && memsize > 0 &&
                                    DataAccepted(file.records.Length, file.trailing, memsize, blocks) &&
                                    (file.records.Length > 0 ==> threads > 0)
    ensures outcome == DivideByZero || outcome == BadBarrier ==> file.records[..] == old(file.records[..])
    ensures outcome == Refusal ==>
              if ArgsAccepted(pageSize, memsize, blocks, threads) && memsize > 0 &&
                 FirstPortionAccepted(file.records.Length, file.trailing, memsize, blocks)
              then GivenUp(portions, file.trailing, memsize, blocks, threads, old(file.records[..]), src, file.records[..])
              else file.records[..] == old(file.records[..])
    ensures outcome == Success ==> Sorted(file.records[..]) && StableSortOf(src, file.records[..])
    ensures outcome == Success ==> PortionsBlockSorted(Table(portions), blocks, old(file.records[..]), src)
    ensures outcome == Success ==> Tabled(Table(portions), 0, file.records.Length)
    ensures outcome == Success ==> |portions| == MaxRuns(RECORD_SIZE * file.records.Length, memsize)
    ensures outcome == Success ==> TableOf(portions, RECORD_SIZE * file.records.Length, memsize)
  {
    src, portions := [], [];
    if memsize % pageSize != 0 {
      return Refusal, src, portions;
    }
    if blocks <= 0 {
      return Refusal, src, portions;
    }
    PowerOfTwoTest(blocks);
    if BitAnd(blocks, blocks - 1) != 0 || blocks < threads * 4 {
      return Refusal, src, portions;
    }
    file.gBlockCount, file.gThreadCount := blocks, threads;
    if memsize == 0 {
      return DivideByZero, src, portions;
    }
    MultipleOfMultiple(memsize, pageSize);
    var status;
    status, src, portions := SortChecked(file, memsize, blocks);
    if status != Done {
      NothingDone(portions, file.trailing, memsize, blocks, threads, old(file.records[..]), src, file.records[..]);
    }
    outcome := match status case Done => Success case Refused => Refusal case BarrierFault => BadBarrier;
  }

  // A thread count of 0 gets there: two records, one block, a page of memory.
  lemma NoThreadReachesBarrier()
    ensures ArgsAccepted(4096, 4096, 1, 0) && FirstPortionAccepted(2, 0, 4096, 1)
  {
  }

  // main after its argument checks.
  method SortChecked(file: Sorter, memsize: nat, blocks: nat) returns (status: Status, ghost src: seq<Record>, ghost portions: seq<Run>)
    requires file.trailing < RECORD_SIZE && memsize > 0 && memsize % RECORD_SIZE == 0
    requires IsPowerOfTwo(blocks) && file.gBlockCount == blocks
    modifies file`gNextBlock, file`gBarrier, file`gBlockCount, file`gBlockSize, file`gRecords, file.records
    ensures status == Done <==> DataAccepted(file.records.Length, file.trailing, memsize, blocks) &&
                                (file.records.Length > 0 ==> file.gThreadCount > 0)
    ensures status == BarrierFault <==> FirstPortionAccepted(file.records.Length, file.trailing, memsize, blocks) &&
                                        file.gThreadCount <= 0
    ensures Permutation(old(file.records[..]), file.records[..])
    ensures status != Done ==>
              GivenUp(portions, file.trailing, memsize, blocks, file.gThreadCount, old(file.records[..]), src, file.records[..])
    ensures status == Done ==> StableSortOf(src, file.records[..])
    ensures status == Done ==> PortionsBlockSorted(Table(portions), blocks, old(file.records[..]), src)
    ensures status == Done ==> Tabled(Table(portions), 0, file.records.Length)
    ensures status == Done ==> |portions| == MaxRuns(RECORD_SIZE * file.records.Length, memsize)
    ensures status == Done ==> TableOf(portions, RECORD_SIZE * file.records.Length, memsize)
  {
    var dataSize := file.FileSize() - HEADER_SIZE;
    var maxRuns := (dataSize + memsize - 1) / memsize;
    var runs := new Run[maxRuns](_ => Run(0, 0));
    status, src, portions := SortPortions(file, memsize, blocks, runs);
    if status != Done {
      return;
    }
    portions := runs[..];
    assert runs[..maxRuns] == portions;
    if maxRuns > 1 {
      MergeRuns(file.records, runs, maxRuns, src);
    } else {
      FewRuns(portions, src, file.records[..]);
    }
  }

  lemma MultipleOfMultiple(memsize: nat, pageSize: nat)
    requires pageSize > 0 && pageSize % RECORD_SIZE == 0 && memsize % pageSize == 0
    ensures memsize % RECORD_SIZE == 0
  {
    var p, q := pageSize / RECORD_SIZE, memsize / pageSize;
    assert memsize == q * pageSize == q * (p * RECORD_SIZE) == (q * p) * RECORD_SIZE;
  }

  // With at most one run the external merge is skipped, and the run is the whole file.
  lemma {:induction false} FewRuns(portions: seq<Run>, src: seq<Record>, file: seq<Record>)
    requires |portions| <= 1 && Tabled(Table(portions), 0, |file|) && |src| == |file|
    ensures EachRun(StableSortOf, Table(portions), 0, src, file) <==> StableSortOf(src, file)
  {
    if portions == [] {
      assert src == [] && file == [];
    } else {
      SingleRun(portions, src, file);
    }
  }
}

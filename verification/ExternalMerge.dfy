/** external_merge of sort_index.c: pairwise merging of the runs recorded in the run table,
    which is compacted in place while it is read. */
module ExternalMerge {
  import opened IndexRecords
  import opened Segments
  import opened PortionSort
  import opened MergeBlocks

  // run_boundary; the offset counts bytes from the start of the file.
  datatype Run = Run(offset: nat, nrecords: nat)

  // The entries of a run table, in order.
  datatype Runs = End | Next(run: Run, rest: Runs)

  // The table that lists the entries s and then those of t.
  function Onto(s: seq<Run>, t: Runs): Runs {
    if s == [] then t else Next(s[0], Onto(s[1..], t))
  }

  function Table(s: seq<Run>): Runs {
    Onto(s, End)
  }

  lemma {:induction false} OntoAppend(s: seq<Run>, r: Run, t: Runs)
    ensures Onto(s + [r], t) == Onto(s, Next(r, t))
  {
    if s == [] {
      assert s + [r] == [r];
    } else {
      assert (s + [r])[1..] == s[1..] + [r];
      OntoAppend(s[1..], r, t);
    }
  }

  function ByteOf(record: nat): nat {
    HEADER_SIZE + RECORD_SIZE * record
  }

  // The runs are contiguous and cover exactly the records from..to.
  predicate Tabled(t: Runs, from: nat, to: nat) {
    match t
    case End => from == to
    case Next(r, rest) => r.offset == ByteOf(from) && Tabled(rest, from + r.nrecords, to)
  }

  // Something a run may satisfy, given the same records of a reference file and of the file.
  type RunProperty = (seq<Record>, seq<Record>) -> bool

  ghost predicate EachRun(good: RunProperty, t: Runs, from: nat, src: seq<Record>, file: seq<Record>) {
    match t
    case End => true
    case Next(r, rest) =>
      good(Part(src, from, r.nrecords), Part(file, from, r.nrecords)) && EachRun(good, rest, from + r.nrecords, src, file)
  }

  // `first` holds of the first run, `later` of the others.
  ghost predicate FirstAndLater(first: RunProperty, later: RunProperty, t: Runs, src: seq<Record>, file: seq<Record>) {
    match t
    case End => true
    case Next(r, rest) => first(Part(src, 0, r.nrecords), Part(file, 0, r.nrecords)) && EachRun(later, rest, r.nrecords, src, file)
  }

  lemma {:induction false} FirstAndLaterAppend(first: RunProperty, later: RunProperty, s: seq<Run>, to: nat, r: Run, src: seq<Record>, file: seq<Record>)
    requires Tabled(Table(s), 0, to)
    ensures FirstAndLater(first, later, Table(s + [r]), src, file) <==>
            FirstAndLater(first, later, Table(s), src, file) &&
            (if s == [] then first(Part(src, to, r.nrecords), Part(file, to, r.nrecords))
             else later(Part(src, to, r.nrecords), Part(file, to, r.nrecords)))
  {
    if s == [] {
      assert s + [r] == [r] && Onto([r][1..], End) == End;
      assert Table(s + [r]) == Next(r, End) && Table(s) == End;
      assert Tabled(End, 0, to);
    } else {
      assert (s + [r])[1..] == s[1..] + [r];
      assert Table(s + [r]) == Next(s[0], Table(s[1..] + [r])) && Table(s) == Next(s[0], Table(s[1..]));
      EachAppend(later, s[1..], s[0].nrecords, to, r, src, file);
    }
  }

  lemma {:induction false} FirstAndLaterFrame(first: RunProperty, later: RunProperty, t: Runs, to: nat, src: seq<Record>,
                           file: seq<Record>, file': seq<Record>, n: nat)
    requires Tabled(t, 0, to) && SameOutside(file, file', to, n)
    ensures FirstAndLater(first, later, t, src, file') <==> FirstAndLater(first, later, t, src, file)
  {
    if t.Next? {
      TabledForward(t.rest, t.run.nrecords, to);
      OutsideKept(file, file', to, n);
      assert Part(file', 0, t.run.nrecords) == Part(file, 0, t.run.nrecords);
      EachFrame(later, t.rest, t.run.nrecords, to, src, src, file, file', to, n);
    }
  }

  // The run is sorted, whatever it once was.
  ghost predicate Ascending(src: seq<Record>, run: seq<Record>) {
    Sorted(run)
  }

  lemma {:induction false} TabledForward(t: Runs, from: nat, to: nat)
    requires Tabled(t, from, to)
    ensures from <= to
  {
    if t.Next? {
      TabledForward(t.rest, from + t.run.nrecords, to);
    }
  }

  // Adding an entry for the n records from `to` on.
  lemma {:induction false} TabledAppend(s: seq<Run>, from: nat, to: nat, r: Run)
    requires Tabled(Table(s), from, to) && r.offset == ByteOf(to)
    ensures Tabled(Table(s + [r]), from, to + r.nrecords)
  {
    if s == [] {
      assert s + [r] == [r] && Onto([r][1..], End) == End;
    } else {
      assert (s + [r])[1..] == s[1..] + [r];
      TabledAppend(s[1..], from + s[0].nrecords, to, r);
    }
  }

  lemma {:induction false} EachAppend(good: RunProperty, s: seq<Run>, from: nat, to: nat, r: Run, src: seq<Record>, file: seq<Record>)
    requires Tabled(Table(s), from, to)
    ensures EachRun(good, Table(s + [r]), from, src, file) <==>
            EachRun(good, Table(s), from, src, file) && good(Part(src, to, r.nrecords), Part(file, to, r.nrecords))
  {
    if s == [] {
      assert s + [r] == [r];
    } else {
      assert (s + [r])[1..] == s[1..] + [r];
      EachAppend(good, s[1..], from + s[0].nrecords, to, r, src, file);
    }
  }

  // Changes outside the records a stretch of the table covers do not concern its runs.
  lemma {:induction false} EachFrame(good: RunProperty, t: Runs, from: nat, to: nat, src: seq<Record>, src': seq<Record>,
                                     file: seq<Record>, file': seq<Record>, lo: nat, n: nat)
    requires Tabled(t, from, to) && PartsKept(file, file', lo, n) && PartsKept(src, src', lo, n)
    requires to <= lo || lo + n <= from
    ensures EachRun(good, t, from, src', file') <==> EachRun(good, t, from, src, file)
  {
    if t.Next? {
      var k := t.run.nrecords;
      TabledForward(t.rest, from + k, to);
      assert Part(file', from, k) == Part(file, from, k) && Part(src', from, k) == Part(src, from, k);
      EachFrame(good, t.rest, from + k, to, src, src', file, file', lo, n);
    }
  }

  function Joined(left: Run, right: Run): Run {
    Run(left.offset, left.nrecords + right.nrecords)
  }

  // The run table after one pass: pairs joined, a last single run moved down.
  function Halved(t: Runs): Runs {
    match t
    case Next(left, Next(right, rest)) => Next(Joined(left, right), Halved(rest))
    case _ => t
  }

  // Merging the n and n' records from lo on: (file, lo, n, n').
  type PairStep = (seq<Record>, nat, nat, nat) -> seq<Record>

  // The file after one pass over these runs, which start at record `from`.
  function PassFile(m: PairStep, t: Runs, from: nat, file: seq<Record>): seq<Record> {
    match t
    case Next(left, Next(right, rest)) =>
      PassFile(m, rest, from + left.nrecords + right.nrecords, m(file, from, left.nrecords, right.nrecords))
    case _ => file
  }

  lemma {:induction false} HalvedTabled(t: Runs, from: nat, to: nat)
    requires Tabled(t, from, to)
    ensures Tabled(Halved(t), from, to)
  {
    match t
    case Next(left, Next(right, rest)) => HalvedTabled(rest, from + left.nrecords + right.nrecords, to);
    case _ =>
  }

  lemma PartSplit(file: seq<Record>, lo: nat, n: nat, n': nat)
    requires lo + n + n' <= |file|
    ensures Part(file, lo, n + n') == Part(file, lo, n) + Part(file, lo + n, n')
  {
  }

  // The step from file to file' merges the pair and touches nothing else.
  ghost predicate MergesPair(file: seq<Record>, file': seq<Record>, lo: nat, n: nat, n': nat) {
    && PartsKept(file, file', lo, n + n')
    && Part(file', lo, n + n') == Merge(Part(file, lo, n), Part(file, lo + n, n'))
  }

  ghost predicate MergesPairs(m: PairStep) {
    forall file: seq<Record>, lo: nat, n: nat, n': nat {:trigger m(file, lo, n, n')} :: lo + n + n' <= |file| ==>
      MergesPair(file, m(file, lo, n, n'), lo, n, n')
  }

  ghost predicate PermutesPairs(m: PairStep) {
    forall file: seq<Record>, lo: nat, n: nat, n': nat {:trigger m(file, lo, n, n')} :: lo + n + n' <= |file| ==>
      |m(file, lo, n, n')| == |file| && Permutation(file, m(file, lo, n, n'))
  }

  // Marks the arguments on which IsPairMerge is to be used.
  ghost predicate Merged(file: seq<Record>, lo: nat, n: nat, n': nat) {
    true
  }

  // m is PairMerged.
  ghost predicate IsPairMerge(m: PairStep) {
    forall file: seq<Record>, lo: nat, n: nat, n': nat {:trigger Merged(file, lo, n, n')} ::
      Merged(file, lo, n, n') ==> m(file, lo, n, n') == PairMerged(file, lo, n, n')
  }

  ghost predicate KeepsLength(m: PairStep) {
    forall file: seq<Record>, lo: nat, n: nat, n': nat :: |m(file, lo, n, n')| == |file|
  }

  lemma PairMergedMergesPairs()
    ensures MergesPairs(PairMerged) && PermutesPairs(PairMerged) && IsPairMerge(PairMerged) && KeepsLength(PairMerged)
  {
    forall file: seq<Record>, lo: nat, n: nat, n': nat | lo + n + n' <= |file|
      ensures MergesPair(file, PairMerged(file, lo, n, n'), lo, n, n') && Permutation(file, PairMerged(file, lo, n, n'))
    {
      ReplacedPart(file, lo, Merge(Part(file, lo, n), Part(file, lo + n, n')));
      PairPermutes(file, PairMerged(file, lo, n, n'), lo, n, n');
      OutsideKept(file, PairMerged(file, lo, n, n'), lo, n + n');
    }
  }

  lemma PairPermutes(file: seq<Record>, file': seq<Record>, lo: nat, n: nat, n': nat)
    requires lo + n + n' <= |file| && SameOutside(file, file', lo, n + n')
    requires Part(file', lo, n + n') == Merge(Part(file, lo, n), Part(file, lo + n, n'))
    ensures Permutation(file, file')
  {
    MergePermutes(Part(file, lo, n), Part(file, lo + n, n'));
    PartSplit(file, lo, n, n');
    PartsPermute(file, file', lo, n + n');
  }

  // A pass leaves what precedes its runs alone.
  lemma {:induction false} PassFrame(m: PairStep, t: Runs, from: nat, file: seq<Record>)
    requires MergesPairs(m) && Tabled(t, from, |file|)
    ensures from <= |file| && PartsKept(file, PassFile(m, t, from, file), from, |file| - from)
  {
    TabledForward(t, from, |file|);
    match t
    case Next(left, Next(right, rest)) =>
      var file1 := m(file, from, left.nrecords, right.nrecords);
      TabledForward(rest, from + left.nrecords + right.nrecords, |file|);
      assert MergesPair(file, file1, from, left.nrecords, right.nrecords);
      PassFrame(m, rest, from + left.nrecords + right.nrecords, file1);
    case _ =>
  }

  lemma {:induction false} PassPermutes(m: PairStep, t: Runs, from: nat, file: seq<Record>)
    requires PermutesPairs(m) && Tabled(t, from, |file|)
    ensures Permutation(file, PassFile(m, t, from, file))
  {
    match t
    case Next(left, Next(right, rest)) =>
      var file1 := m(file, from, left.nrecords, right.nrecords);
      TabledForward(rest, from + left.nrecords + right.nrecords, |file|);
      PassPermutes(m, rest, from + left.nrecords + right.nrecords, file1);
    case _ =>
  }

  // The first pair of a pass is merged and not touched again; the later runs are merged later.
  lemma PassTurn(m: PairStep, left: Run, right: Run, rest: Runs, from: nat, file: seq<Record>) returns (at: nat, file1: seq<Record>)
    requires MergesPairs(m) && Tabled(Next(left, Next(right, rest)), from, |file|)
    ensures at == from + left.nrecords + right.nrecords <= |file| == |file1|
    ensures PartsKept(file, file1, from, left.nrecords + right.nrecords)
    ensures Tabled(rest, at, |file1|)
    ensures PassFile(m, Next(left, Next(right, rest)), from, file) == PassFile(m, rest, at, file1)
    ensures Part(PassFile(m, rest, at, file1), from, left.nrecords + right.nrecords) ==
            Merge(Part(file, from, left.nrecords), Part(file, from + left.nrecords, right.nrecords))
  {
    at := from + left.nrecords + right.nrecords;
    file1 := m(file, from, left.nrecords, right.nrecords);
    assert Tabled(Next(right, rest), from + left.nrecords, |file|);
    TabledForward(rest, at, |file|);
    assert MergesPair(file, file1, from, left.nrecords, right.nrecords);
    PassFrame(m, rest, at, file1);
  }

  // Marks the reference parts and runs that KeptByMerge and ReflectedByMerge are to be used on.
  ghost predicate Merging(a: seq<Record>, l: seq<Record>, b: seq<Record>, r: seq<Record>) {
    true
  }

  // Merging two runs that satisfy the property gives a run that does.
  ghost predicate KeptByMerge(good: RunProperty) {
    forall a, l, b, r {:trigger Merging(a, l, b, r)} :: Merging(a, l, b, r) && good(a, l) && good(b, r) ==> good(a + b, Merge(l, r))
  }

  // Merging gives a run that satisfies the property only if both runs did.
  ghost predicate ReflectedByMerge(good: RunProperty) {
    forall a, l, b, r {:trigger Merging(a, l, b, r)} :: Merging(a, l, b, r) && good(a + b, Merge(l, r)) ==> good(a, l) && good(b, r)
  }

  // Before a pass: its first two runs, and the rest, which the first merge leaves alone.
  lemma EachOfTwo(good: RunProperty, left: Run, right: Run, rest: Runs, from: nat, at: nat,
                  src: seq<Record>, file: seq<Record>, file1: seq<Record>)
    requires at == from + left.nrecords + right.nrecords && Tabled(rest, at, |file|)
    requires PartsKept(file, file1, from, left.nrecords + right.nrecords)
    ensures EachRun(good, Next(left, Next(right, rest)), from, src, file) <==>
            good(Part(src, from, left.nrecords), Part(file, from, left.nrecords)) &&
            good(Part(src, from + left.nrecords, right.nrecords), Part(file, from + left.nrecords, right.nrecords)) &&
            EachRun(good, rest, at, src, file1)
  {
    assert EachRun(good, Next(right, rest), from + left.nrecords, src, file) <==>
           good(Part(src, from + left.nrecords, right.nrecords), Part(file, from + left.nrecords, right.nrecords)) &&
           EachRun(good, rest, at, src, file);
    EachFrame(good, rest, at, |file|, src, src, file, file1, from, left.nrecords + right.nrecords);
  }

  // After it: their merge, and the rest.
  lemma EachOfJoined(good: RunProperty, left: Run, right: Run, rest: Runs, from: nat, at: nat,
                     src: seq<Record>, final: seq<Record>, merged: seq<Record>)
    requires at == from + left.nrecords + right.nrecords <= |src|
    requires Part(final, from, left.nrecords + right.nrecords) == merged
    ensures EachRun(good, Halved(Next(left, Next(right, rest))), from, src, final) <==>
            good(Part(src, from, left.nrecords) + Part(src, from + left.nrecords, right.nrecords), merged) &&
            EachRun(good, Halved(rest), at, src, final)
  {
    PartSplit(src, from, left.nrecords, right.nrecords);
  }

  lemma {:induction false} PassKeeps(good: RunProperty, m: PairStep, t: Runs, from: nat, src: seq<Record>, file: seq<Record>)
    requires KeptByMerge(good) && MergesPairs(m)
    requires Tabled(t, from, |file|) && |src| == |file|
    requires EachRun(good, t, from, src, file)
    ensures EachRun(good, Halved(t), from, src, PassFile(m, t, from, file))
  {
    match t
    case Next(left, Next(right, rest)) =>
      var at, file1 := PassTurn(m, left, right, rest, from, file);
      EachOfTwo(good, left, right, rest, from, at, src, file, file1);
      EachOfJoined(good, left, right, rest, from, at, src, PassFile(m, rest, at, file1),
                   Merge(Part(file, from, left.nrecords), Part(file, from + left.nrecords, right.nrecords)));
      PassKeeps(good, m, rest, at, src, file1);
      assert Merging(Part(src, from, left.nrecords), Part(file, from, left.nrecords),
                     Part(src, from + left.nrecords, right.nrecords), Part(file, from + left.nrecords, right.nrecords));
    case _ =>
  }

  lemma {:induction false} PassReflects(good: RunProperty, m: PairStep, t: Runs, from: nat, src: seq<Record>, file: seq<Record>)
    requires ReflectedByMerge(good) && MergesPairs(m)
    requires Tabled(t, from, |file|) && |src| == |file|
    requires EachRun(good, Halved(t), from, src, PassFile(m, t, from, file))
    ensures EachRun(good, t, from, src, file)
  {
    match t
    case Next(left, Next(right, rest)) =>
      var at, file1 := PassTurn(m, left, right, rest, from, file);
      EachOfTwo(good, left, right, rest, from, at, src, file, file1);
      EachOfJoined(good, left, right, rest, from, at, src, PassFile(m, rest, at, file1),
                   Merge(Part(file, from, left.nrecords), Part(file, from + left.nrecords, right.nrecords)));
      PassReflects(good, m, rest, at, src, file1);
      assert Merging(Part(src, from, left.nrecords), Part(file, from, left.nrecords),
                     Part(src, from + left.nrecords, right.nrecords), Part(file, from + left.nrecords, right.nrecords));
    case _ =>
  }

  lemma StableKept()
    ensures KeptByMerge(StableSortOf)
  {
    forall a, l, b, r | StableSortOf(a, l) && StableSortOf(b, r) ensures StableSortOf(a + b, Merge(l, r)) {
      MergeOfStableSorts(a, l, b, r);
    }
  }

  lemma AscendingKept()
    ensures KeptByMerge(Ascending) && ReflectedByMerge(Ascending)
  {
    forall a, l, b, r | Ascending(a, l) && Ascending(b, r) ensures Ascending(a + b, Merge(l, r)) {
      MergeSorts(l, r);
    }
    forall a, l, b, r | Ascending(a + b, Merge(l, r)) ensures Ascending(a, l) && Ascending(b, r) {
      MergeSortedOnlyIf(l, r);
    }
  }

  // After a pass over stably sorted runs the runs are stably sorted.
  lemma {:induction false} PassStable(t: Runs, src: seq<Record>, file: seq<Record>)
    requires Tabled(t, 0, |file|) && |src| == |file|
    requires EachRun(StableSortOf, t, 0, src, file)
    ensures EachRun(StableSortOf, Halved(t), 0, src, PassFile(PairMerged, t, 0, file))
  {
    StableKept();
    PairMergedMergesPairs();
    PassKeeps(StableSortOf, PairMerged, t, 0, src, file);
  }

  // After any pass all runs are sorted exactly if they all were before.
  lemma {:induction false} PassAscending(t: Runs, src: seq<Record>, file: seq<Record>)
    requires Tabled(t, 0, |file|) && |src| == |file|
    ensures EachRun(Ascending, t, 0, src, file) <==> EachRun(Ascending, Halved(t), 0, src, PassFile(PairMerged, t, 0, file))
  {
    AscendingKept();
    PairMergedMergesPairs();
    if EachRun(Ascending, t, 0, src, file) {
      PassKeeps(Ascending, PairMerged, t, 0, src, file);
    } else if EachRun(Ascending, Halved(t), 0, src, PassFile(PairMerged, t, 0, file)) {
      PassReflects(Ascending, PairMerged, t, 0, src, file);
    }
  }

  // merge_blocks on the mapped pair of runs[i] and runs[i + 1].
  method MergeRunPair(records: array<Record>, left: Run, right: Run, ghost m: PairStep, ghost lo: nat)
    requires IsPairMerge(m) && left.offset == ByteOf(lo) && lo + left.nrecords + right.nrecords <= records.Length
    modifies records
    ensures records[..] == m(old(records[..]), lo, left.nrecords, right.nrecords)
  {
    var first := (left.offset - HEADER_SIZE) / RECORD_SIZE;
    assert first == lo && Merged(records[..], lo, left.nrecords, right.nrecords);
    MergeInPlace(records, first, left.nrecords, right.nrecords);
  }

  // The table and file a pass aims at, split at the entries not read yet.
  ghost predicate PassSoFar(m: PairStep, t: Runs, file0: seq<Record>, done: seq<Run>, unread: Runs, at: nat, file: seq<Record>) {
    && Onto(done, Halved(unread)) == Halved(t)
    && (unread.Next? ==> Tabled(unread, at, |file|))
    && PassFile(m, unread, at, file) == PassFile(m, t, 0, file0)
  }

  lemma PassMoves(m: PairStep, t: Runs, file0: seq<Record>, done: seq<Run>, r: Run, at: nat, file: seq<Record>)
    requires PassSoFar(m, t, file0, done, Next(r, End), at, file)
    ensures PassSoFar(m, t, file0, done + [r], End, at, file)
  {
    OntoAppend(done, r, End);
  }

  lemma PassMerges(m: PairStep, t: Runs, file0: seq<Record>, done: seq<Run>, left: Run, right: Run, rest: Runs, at: nat, file: seq<Record>)
    requires KeepsLength(m) && PassSoFar(m, t, file0, done, Next(left, Next(right, rest)), at, file)
    ensures PassSoFar(m, t, file0, done + [Joined(left, right)], rest, at + left.nrecords + right.nrecords,
                      m(file, at, left.nrecords, right.nrecords))
    ensures left.offset == ByteOf(at) && at + left.nrecords + right.nrecords <= |file|
  {
    OntoAppend(done, Joined(left, right), Halved(rest));
    assert Halved(Next(left, Next(right, rest))) == Next(Joined(left, right), Halved(rest));
    assert Tabled(Next(right, rest), at + left.nrecords, |file|);
    TabledForward(rest, at + left.nrecords + right.nrecords, |file|);
  }

  // Where the inner loop stands in the array: `done` has been written, `unread` is still there.
  ghost predicate AtEntry(runs: seq<Run>, runCount: nat, i: nat, done: seq<Run>, unread: Runs) {
    && runCount <= |runs| && i % 2 == 0 && i <= runCount + 1 && |done| == i / 2
    && done <= runs && unread == (if i < runCount then Table(runs[i..runCount]) else End)
  }

  lemma EntriesAhead(runs: seq<Run>, runCount: nat, i: nat)
    requires i < runCount <= |runs|
    ensures i + 1 == runCount ==> Table(runs[i..runCount]) == Next(runs[i], End)
    ensures i + 1 < runCount ==>
      Table(runs[i..runCount]) == Next(runs[i], Next(runs[i + 1], if i + 2 < runCount then Table(runs[i + 2..runCount]) else End))
  {
    assert runs[i..runCount][1..] == runs[i + 1..runCount];
    assert Table(runs[i..runCount]) == Next(runs[i], Table(runs[i + 1..runCount]));
    if i + 1 < runCount {
      assert runs[i + 1..runCount][1..] == runs[i + 2..runCount];
      assert Table(runs[i + 1..runCount]) == Next(runs[i + 1], Table(runs[i + 2..runCount]));
    }
  }

  // Writing entry i / 2 leaves the entries after the pair unread and as they were.
  lemma EntryWritten(runs: seq<Run>, runCount: nat, i: nat, done: seq<Run>, unread: Runs, r: Run)
    requires i < runCount && AtEntry(runs, runCount, i, done, unread)
    ensures i + 1 == runCount ==> AtEntry(runs[i / 2 := r], runCount, i + 2, done + [r], End)
    ensures i + 1 < runCount ==> unread.Next? && unread.rest.Next? && AtEntry(runs[i / 2 := r], runCount, i + 2, done + [r], unread.rest.rest)
  {
    EntriesAhead(runs, runCount, i);
    assert done + [r] <= runs[i / 2 := r];
    if i + 2 < runCount {
      assert runs[i / 2 := r][i + 2..runCount] == runs[i + 2..runCount];
    }
  }

  lemma MoveTurn(entries: seq<Run>, runCount: nat, i: nat, m: PairStep, t: Runs, file0: seq<Record>, done: seq<Run>,
                 unread: Runs, at: nat, file: seq<Record>)
    requires i + 1 == runCount && AtEntry(entries, runCount, i, done, unread) && PassSoFar(m, t, file0, done, unread, at, file)
    ensures AtEntry(entries[i / 2 := entries[i]], runCount, i + 2, done + [entries[i]], End)
    ensures PassSoFar(m, t, file0, done + [entries[i]], End, at, file)
  {
    EntriesAhead(entries, runCount, i);
    PassMoves(m, t, file0, done, entries[i], at, file);
    EntryWritten(entries, runCount, i, done, unread, entries[i]);
  }

  lemma MergeTurn(entries: seq<Run>, runCount: nat, i: nat, m: PairStep, t: Runs, file0: seq<Record>, done: seq<Run>,
                  unread: Runs, at: nat, file: seq<Record>)
    requires KeepsLength(m) && i + 1 < runCount && AtEntry(entries, runCount, i, done, unread) && PassSoFar(m, t, file0, done, unread, at, file)
    ensures entries[i].offset == ByteOf(at) && at + entries[i].nrecords + entries[i + 1].nrecords <= |file|
    ensures unread.Next? && unread.rest.Next?
    ensures var merged := Joined(entries[i], entries[i + 1]);
      && AtEntry(entries[i / 2 := merged], runCount, i + 2, done + [merged], unread.rest.rest)
      && PassSoFar(m, t, file0, done + [merged], unread.rest.rest, at + merged.nrecords,
                   m(file, at, entries[i].nrecords, entries[i + 1].nrecords))
  {
    EntriesAhead(entries, runCount, i);
    PassMerges(m, t, file0, done, entries[i], entries[i + 1], unread.rest.rest, at, file);
    EntryWritten(entries, runCount, i, done, unread, Joined(entries[i], entries[i + 1]));
  }

  // One turn of the inner loop of external_merge: move a last single run, or merge a pair.
  method PassStep(records: array<Record>, runs: array<Run>, runCount: nat, i: nat, made: nat, ghost m: PairStep, ghost t: Runs,
                  ghost file0: seq<Record>, ghost done: seq<Run>, ghost unread: Runs, ghost at: nat)
    returns (ghost done': seq<Run>, ghost unread': Runs, ghost at': nat)
    requires IsPairMerge(m) && KeepsLength(m) && i < runCount && made == i / 2
    requires AtEntry(runs[..], runCount, i, done, unread) && PassSoFar(m, t, file0, done, unread, at, records[..])
    modifies records, runs
    ensures AtEntry(runs[..], runCount, i + 2, done', unread')
    ensures PassSoFar(m, t, file0, done', unread', at', records[..])
  {
    ghost var entries, file := runs[..], records[..];
    if i + 1 == runCount {
      MoveTurn(entries, runCount, i, m, t, file0, done, unread, at, file);
      done', unread', at' := done + [runs[i]], End, at;
      runs[made] := runs[i];
      assert runs[..] == entries[i / 2 := entries[i]];
    } else {
      MergeTurn(entries, runCount, i, m, t, file0, done, unread, at, file);
      var merged := Joined(runs[i], runs[i + 1]);
      done', unread', at' := done + [merged], unread.rest.rest, at + merged.nrecords;
      MergeRunPair(records, runs[i], runs[i + 1], m, at);
      runs[made] := merged;
      assert runs[..] == entries[i / 2 := merged];
    }
  }

  // The inner loop of external_merge.
  method MergePass(records: array<Record>, runs: array<Run>, runCount: nat, ghost m: PairStep) returns (newRunCount: nat)
    requires IsPairMerge(m) && KeepsLength(m)
    requires runCount <= runs.Length && Tabled(Table(runs[..runCount]), 0, records.Length)
    modifies records, runs
    ensures newRunCount == (runCount + 1) / 2 <= runs.Length
    ensures Table(runs[..newRunCount]) == Halved(old(Table(runs[..runCount])))
    ensures records[..] == PassFile(m, old(Table(runs[..runCount])), 0, old(records[..]))
  {
    ghost var t, file0 := Table(runs[..runCount]), records[..];
    ghost var done: seq<Run>, unread, at: nat := [], t, 0;
    newRunCount := 0;
    var i := 0;
    assert runs[..][0..runCount] == runs[..runCount];
    while i < runCount
      invariant newRunCount == i / 2
      invariant AtEntry(runs[..], runCount, i, done, unread)
      invariant PassSoFar(m, t, file0, done, unread, at, records[..])
    {
      done, unread, at := PassStep(records, runs, runCount, i, newRunCount, m, t, file0, done, unread, at);
      newRunCount := newRunCount + 1;
      i := i + 2;
    }
    assert done == runs[..newRunCount];
  }

  // external_merge, called with more than one run. If each run is the stable sort of the same
  // records of src, the file ends as the stable sort of src; and it ends sorted exactly if each
  // run was sorted.
  method MergeRuns(records: array<Record>, runs: array<Run>, initialRunCount: nat, ghost src: seq<Record>)
    requires 1 <= initialRunCount <= runs.Length
    requires Tabled(Table(runs[..initialRunCount]), 0, records.Length) && |src| == records.Length
    modifies records, runs
    ensures old(EachRun(StableSortOf, Table(runs[..initialRunCount]), 0, src, records[..])) ==> StableSortOf(src, records[..])
    ensures Sorted(records[..]) <==> old(EachRun(Ascending, Table(runs[..initialRunCount]), 0, src, records[..]))
    ensures Permutation(old(records[..]), records[..])
  {
    ghost var t, file := Table(runs[..initialRunCount]), records[..];
    ghost var stable, ascending := EachRun(StableSortOf, t, 0, src, file), EachRun(Ascending, t, 0, src, file);
    var runCount := initialRunCount;
    while runCount > 1
      invariant 1 <= runCount <= runs.Length
      invariant Table(runs[..runCount]) == t && records[..] == file && Tabled(t, 0, |file|)
      invariant stable ==> EachRun(StableSortOf, t, 0, src, file)
      invariant ascending <==> EachRun(Ascending, t, 0, src, file)
      invariant Permutation(old(records[..]), file)
    {
      if stable {
        PassStable(t, src, file);
      }
      PassAscending(t, src, file);
      PairMergedMergesPairs();
      PassPermutes(PairMerged, t, 0, file);
      HalvedTabled(t, 0, |file|);
      runCount := MergePass(records, runs, runCount, PairMerged);
      t, file := Halved(t), PassFile(PairMerged, t, 0, file);
    }
    SingleRun(runs[..1], src, file);
  }

  lemma {:induction false} SingleRun(s: seq<Run>, src: seq<Record>, file: seq<Record>)
    requires |s| == 1 && Tabled(Table(s), 0, |file|) && |src| == |file|
    ensures EachRun(StableSortOf, Table(s), 0, src, file) <==> StableSortOf(src, file)
    ensures EachRun(Ascending, Table(s), 0, src, file) <==> Sorted(file)
  {
    assert s[1..] == [] && Onto(s[1..], End) == End && Table(s) == Next(s[0], End);
    assert Part(file, 0, |file|) == file && Part(src, 0, |file|) == src;
  }
}

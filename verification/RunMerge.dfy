/** The merge of two adjacent runs of a file, record by record as merge_blocks makes it. */
module RunMerge {
  import opened IndexRecords
  import opened Segments

  // The merge of the n and n' records from lo on.
  function MergedRuns(file: seq<Record>, lo: nat, n: nat, n': nat): seq<Record> {
    Merge(Part(file, lo, n), Part(file, lo + n, n'))
  }

  // What the loops of merge_blocks keep: with i and j records of the runs used, merged goes on
  // with the merge of what is left.
  predicate RestMerged(file: seq<Record>, lo: nat, nl: nat, nr: nat, i: nat, j: nat, merged: seq<Record>)
    decreases nl + nr - i - j
  {
    && lo + nl + nr <= |file| && |merged| == nl + nr && i <= nl && j <= nr
    && (i < nl || j < nr ==>
          if i < nl && (j < nr ==> CmpIndex(file[lo + i], file[lo + nl + j]) <= 0)
          then merged[i + j] == file[lo + i] && RestMerged(file, lo, nl, nr, i + 1, j, merged)
          else merged[i + j] == file[lo + nl + j] && RestMerged(file, lo, nl, nr, i, j + 1, merged))
  }

  // Merge keeps it: l and r are what is left of the runs.
  lemma {:induction false} RestIsMerge(file: seq<Record>, lo: nat, nl: nat, nr: nat, i: nat, j: nat, merged: seq<Record>,
                                       l: seq<Record>, r: seq<Record>)
    requires lo + nl + nr <= |file| && |merged| == nl + nr && |l| + i == nl && |r| + j == nr
    requires (forall x :: 0 <= x < |l| ==> l[x] == file[lo + i + x]) && forall x :: 0 <= x < |r| ==> r[x] == file[lo + nl + j + x]
    requires forall x :: 0 <= x < |l| + |r| ==> merged[i + j + x] == Merge(l, r)[x]
    ensures RestMerged(file, lo, nl, nr, i, j, merged)
    decreases |l| + |r|
  {
    if l != [] && (r == [] || CmpIndex(l[0], r[0]) <= 0) {
      assert Merge(l, r) == [l[0]] + Merge(l[1..], r);
      assert merged[i + j + 0] == Merge(l, r)[0];
      forall x | 0 <= x < |l| - 1 + |r| ensures merged[i + 1 + j + x] == Merge(l[1..], r)[x] {
        assert merged[i + j + (x + 1)] == Merge(l, r)[x + 1];
      }
      RestIsMerge(file, lo, nl, nr, i + 1, j, merged, l[1..], r);
    } else if r != [] {
      assert Merge(l, r) == [r[0]] + Merge(l, r[1..]);
      assert merged[i + j + 0] == Merge(l, r)[0];
      forall x | 0 <= x < |l| + |r| - 1 ensures merged[i + (j + 1) + x] == Merge(l, r[1..])[x] {
        assert merged[i + j + (x + 1)] == Merge(l, r)[x + 1];
      }
      RestIsMerge(file, lo, nl, nr, i, j + 1, merged, l, r[1..]);
    }
  }

  lemma {:induction false} PartFrom(file: seq<Record>, lo: nat, n: nat, i: nat)
    requires lo + n <= |file| && i == 0
    ensures forall x :: 0 <= x < n ==> Part(file, lo, n)[x] == file[lo + i + x]
  {
  }

  lemma {:induction false} RestStart(file: seq<Record>, lo: nat, nl: nat, nr: nat, i: nat, j: nat)
    requires lo + nl + nr <= |file| && i == 0 && j == 0
    ensures RestMerged(file, lo, nl, nr, i, j, MergedRuns(file, lo, nl, nr))
  {
    var l, r := Part(file, lo, nl), Part(file, lo + nl, nr);
    PartFrom(file, lo, nl, i);
    PartFrom(file, lo + nl, nr, j);
    RestIsMerge(file, lo, nl, nr, i, j, MergedRuns(file, lo, nl, nr), l, r);
  }

  // The loops that copy the rest of the runs, one of which is used up.
  lemma {:induction false} RestCopied(file: seq<Record>, lo: nat, nl: nat, nr: nat, i: nat, j: nat, merged: seq<Record>)
    requires RestMerged(file, lo, nl, nr, i, j, merged) && (i == nl || j == nr)
    ensures forall x :: i + j <= x < nl + j ==> merged[x] == file[lo + x - j]
    ensures forall x :: nl + j <= x < nl + nr ==> merged[x] == file[lo + x]
    decreases nl + nr - i - j
  {
    if i < nl {
      RestCopied(file, lo, nl, nr, i + 1, j, merged);
    } else if j < nr {
      RestCopied(file, lo, nl, nr, i, j + 1, merged);
    }
  }
}

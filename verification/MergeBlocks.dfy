/** merge_blocks and qsort of sort_index.c, in place on an array of records. */
module MergeBlocks {
  import opened IndexRecords
  import opened Segments
  import opened RunMerge

  lemma RecordsAre(a: array<Record>, s: seq<Record>)
    requires a.Length == |s| && forall i :: 0 <= i < |s| ==> a[i] == s[i]
    ensures a[..] == s
  {
  }

  // The file after the n and n' records from lo on have been merged in place.
  function PairMerged(file: seq<Record>, lo: nat, n: nat, n': nat): (file': seq<Record>)
    ensures |file'| == |file|
  {
    Replaced(file, lo, MergedRuns(file, lo, n, n'))
  }

  // The loops of merge_blocks, whose runs are the nl records from lo on and the nr after them.
  // `file` is what a holds, `merged` what tmp is to hold.

  // The comparing loop.
  method CompareHeads(a: array<Record>, lo: nat, nl: nat, nr: nat, tmp: array<Record>, ghost file: seq<Record>, ghost merged: seq<Record>)
    returns (i: nat, j: nat, k: nat)
    requires tmp.Length == nl + nr && tmp != a && a[..] == file
    requires RestMerged(file, lo, nl, nr, 0, 0, merged)
    modifies tmp
    ensures i <= nl && j <= nr && (i == nl || j == nr) && k == i + j && a[..] == file
    ensures RestMerged(file, lo, nl, nr, i, j, merged)
    ensures forall x :: 0 <= x < k ==> tmp[x] == merged[x]
  {
    i, j, k := 0, 0, 0;
    while i < nl && j < nr
      invariant i <= nl && j <= nr && k == i + j && a[..] == file
      invariant RestMerged(file, lo, nl, nr, i, j, merged)
      invariant forall x :: 0 <= x < k ==> tmp[x] == merged[x]
      decreases nl + nr - i - j
    {
      if CmpIndex(a[lo + i], a[lo + nl + j]) <= 0 {
        tmp[k], i := a[lo + i], i + 1;
      } else {
        tmp[k], j := a[lo + nl + j], j + 1;
      }
      k := k + 1;
    }
  }

  // The loop that copies the rest of one run.
  method CopyRest(a: array<Record>, from: nat, n: nat, tmp: array<Record>, k: nat, ghost file: seq<Record>, ghost merged: seq<Record>)
    returns (k': nat)
    requires from + n <= a.Length && k + n <= tmp.Length == |merged| && tmp != a && a[..] == file
    requires forall x :: 0 <= x < k ==> tmp[x] == merged[x]
    requires forall x :: k <= x < k + n ==> merged[x] == file[from + x - k]
    modifies tmp
    ensures k' == k + n && a[..] == file
    ensures forall x :: 0 <= x < k' ==> tmp[x] == merged[x]
  {
    k' := k;
    var i := 0;
    while i < n
      invariant i <= n && k' == k + i && a[..] == file
      invariant forall x :: 0 <= x < k' ==> tmp[x] == merged[x]
    {
      tmp[k'] := a[from + i];
      i, k' := i + 1, k' + 1;
    }
  }

  method MergeIntoTmp(a: array<Record>, lo: nat, nl: nat, nr: nat, tmp: array<Record>, ghost file: seq<Record>, ghost merged: seq<Record>)
    requires tmp.Length == nl + nr && tmp != a && a[..] == file
    requires RestMerged(file, lo, nl, nr, 0, 0, merged)
    modifies tmp
    ensures tmp[..] == merged && a[..] == file
  {
    var i, j, k := CompareHeads(a, lo, nl, nr, tmp, file, merged);
    RestCopied(file, lo, nl, nr, i, j, merged);
    k := CopyRest(a, lo + i, nl - i, tmp, k, file, merged);
    k := CopyRest(a, lo + nl + j, nr - j, tmp, k, file, merged);
    RecordsAre(tmp, merged);
  }

  // The copy back over the runs.
  method CopyBack(a: array<Record>, lo: nat, tmp: array<Record>)
    requires lo + tmp.Length <= a.Length && tmp != a
    modifies a
    ensures a[..] == Replaced(old(a[..]), lo, tmp[..])
  {
    ghost var was := a[..];
    forall x | 0 <= x < tmp.Length {
      a[lo + x] := tmp[x];
    }
    RecordsAre(a, Replaced(was, lo, tmp[..]));
  }

  // merge_blocks: the loops, then the copy back.
  method MergeInPlace(a: array<Record>, lo: nat, nl: nat, nr: nat)
    requires lo + nl + nr <= a.Length
    modifies a
    ensures a[..] == PairMerged(old(a[..]), lo, nl, nr)
  {
    ghost var file := a[..];
    var tmp := new Record[nl + nr](_ => Record(0, 0.0));
    RestStart(file, lo, nl, nr, 0, 0);
    MergeIntoTmp(a, lo, nl, nr, tmp, file, MergedRuns(file, lo, nl, nr));
    CopyBack(a, lo, tmp);
  }

  // qsort at work on the n records from lo on: any writes to them. The loop's records are
  // arbitrary.
  method QSortAtWork(a: array<Record>, lo: nat, n: nat)
    requires lo + n <= a.Length
    modifies a
    ensures SameOutside(old(a[..]), a[..], lo, n)
  {
    var i := 0;
    while i < n
      invariant i <= n && SameOutside(old(a[..]), a[..], lo, n)
    {
      var r: Record := *;
      a[lo + i] := r;
      i := i + 1;
    }
  }

  // qsort returns, having been called on `before`. Callers may use only the contract: a sorted
  // permutation of that, nothing else touched. The body is one way to meet it.
  method QSort(a: array<Record>, lo: nat, before: seq<Record>)
    requires lo + |before| <= a.Length
    modifies a
    ensures SameOutside(old(a[..]), a[..], lo, |before|)
    ensures SortedPermutationOf(before, Part(a[..], lo, |before|))
  {
    ghost var was := a[..];
    var sorted := InsertionSorted(before);
    InsertionSorts(before);
    forall x | 0 <= x < |sorted| {
      a[lo + x] := sorted[x];
    }
    RecordsAre(a, Replaced(was, lo, sorted));
    ReplacedPart(was, lo, sorted);
  }
}

/** Index records of lab6 (index.h, sort_index.c): their order, the reference notion of a
    stable sort, and the merge that merge_blocks performs. */
module IndexRecords {

  // time_mark is a double in the source; NaN is left out, so the keys are totally ordered.
  datatype Record = Record(recno: nat, timeMark: real)

  // cmp_index
  function CmpIndex(a: Record, b: Record): int {
    if a.timeMark < b.timeMark then -1
    else if a.timeMark > b.timeMark then 1
    else 0
  }

  // What qsort demands of its comparison: it orders the records by key, and consistently so.
  lemma CmpIndexOrders(a: Record, b: Record, c: Record)
    ensures CmpIndex(a, b) == 0 <==> a.timeMark == b.timeMark
    ensures CmpIndex(a, b) < 0 <==> a.timeMark < b.timeMark
    ensures CmpIndex(b, a) == -CmpIndex(a, b)
    ensures CmpIndex(a, b) <= 0 && CmpIndex(b, c) <= 0 ==> CmpIndex(a, c) <= 0
  {
  }

  predicate Sorted(s: seq<Record>) {
    forall i, j :: 0 <= i < j < |s| ==> s[i].timeMark <= s[j].timeMark
  }

  // How often r occurs in s.
  function Count(s: seq<Record>, r: Record): nat {
    if s == [] then 0 else (if s[0] == r then 1 else 0) + Count(s[1..], r)
  }

  // Every record occurs equally often in both (PermutationIsSameMultiset).
  ghost predicate Permutation(a: seq<Record>, b: seq<Record>) {
    forall r :: Count(a, r) == Count(b, r)
  }

  lemma {:induction false} CountIsMultiplicity(s: seq<Record>, r: Record)
    ensures Count(s, r) == multiset(s)[r]
  {
    if s != [] {
      assert s == [s[0]] + s[1..];
      CountIsMultiplicity(s[1..], r);
    }
  }

  lemma PermutationIsSameMultiset(a: seq<Record>, b: seq<Record>)
    ensures Permutation(a, b) <==> multiset(a) == multiset(b)
    ensures Permutation(a, b) ==> |a| == |b|
  {
    forall r ensures Count(a, r) == multiset(a)[r] && Count(b, r) == multiset(b)[r] {
      CountIsMultiplicity(a, r);
      CountIsMultiplicity(b, r);
    }
    if Permutation(a, b) {
      assert forall r :: multiset(a)[r] == Count(a, r) == Count(b, r) == multiset(b)[r];
      assert multiset(a) == multiset(b);
      assert |multiset(a)| == |a| && |multiset(b)| == |b|;
    }
  }

  lemma {:induction false} CountConcat(a: seq<Record>, b: seq<Record>, r: Record)
    ensures Count(a + b, r) == Count(a, r) + Count(b, r)
  {
    if a == [] {
      assert a + b == b;
    } else {
      assert (a + b)[1..] == a[1..] + b;
      CountConcat(a[1..], b, r);
    }
  }

  // What qsort promises about a block: sorted, nothing lost, nothing added, no stability.
  ghost predicate SortedPermutationOf(src: seq<Record>, dst: seq<Record>) {
    Sorted(dst) && Permutation(src, dst)
  }

  // The records with one given key, in their order of appearance.
  function WithKey(s: seq<Record>, k: real): seq<Record> {
    if s == [] then []
    else if s[0].timeMark == k then [s[0]] + WithKey(s[1..], k)
    else WithKey(s[1..], k)
  }

  // Records with equal keys appear in the same order in both sequences.
  ghost predicate SameOrderPerKey(a: seq<Record>, b: seq<Record>) {
    forall k :: WithKey(a, k) == WithKey(b, k)
  }

  // dst is THE stable sort of src (StableSortUnique).
  ghost predicate StableSortOf(src: seq<Record>, dst: seq<Record>) {
    Sorted(dst) && SameOrderPerKey(src, dst)
  }

  lemma {:induction false} WithKeyConcat(a: seq<Record>, b: seq<Record>, k: real)
    ensures WithKey(a + b, k) == WithKey(a, k) + WithKey(b, k)
  {
    if a == [] {
      assert a + b == b;
    } else {
      assert (a + b)[1..] == a[1..] + b;
      WithKeyConcat(a[1..], b, k);
    }
  }

  lemma SameOrderConcat(a: seq<Record>, a': seq<Record>, b: seq<Record>, b': seq<Record>)
    requires SameOrderPerKey(a, a') && SameOrderPerKey(b, b')
    ensures SameOrderPerKey(a + b, a' + b')
  {
    forall k ensures WithKey(a + b, k) == WithKey(a' + b', k) {
      WithKeyConcat(a, b, k);
      WithKeyConcat(a', b', k);
    }
  }

  lemma {:induction false} WithKeyCounts(s: seq<Record>, r: Record)
    ensures Count(s, r) == Count(WithKey(s, r.timeMark), r)
  {
    if s != [] {
      WithKeyCounts(s[1..], r);
    }
  }

  // A stable rearrangement is a permutation.
  lemma SameOrderPermutes(a: seq<Record>, b: seq<Record>)
    requires SameOrderPerKey(a, b)
    ensures Permutation(a, b) && |a| == |b|
  {
    forall r ensures Count(a, r) == Count(b, r) {
      WithKeyCounts(a, r);
      WithKeyCounts(b, r);
      assert WithKey(a, r.timeMark) == WithKey(b, r.timeMark);
    }
    PermutationIsSameMultiset(a, b);
  }

  // Smaller keys than every key of s select nothing.
  lemma {:induction false} WithKeyAbsent(s: seq<Record>, k: real)
    requires forall i :: 0 <= i < |s| ==> s[i].timeMark != k
    ensures WithKey(s, k) == []
  {
    if s != [] {
      WithKeyAbsent(s[1..], k);
    }
  }

  // A file has at most one stable sort, so two schedules that both end in a stable sort
  // of the same file end in the same file.
  lemma {:induction false} StableSortUnique(src: seq<Record>, d: seq<Record>, e: seq<Record>)
    requires StableSortOf(src, d) && StableSortOf(src, e)
    ensures d == e
  {
    UniqueUpTo(d, e);
  }

  lemma {:induction false} UniqueUpTo(d: seq<Record>, e: seq<Record>)
    requires Sorted(d) && Sorted(e) && SameOrderPerKey(d, e)
    ensures d == e
  {
    SameOrderPermutes(d, e);
    if d == [] {
      assert e == [];
    } else {
      HeadKeyIsLeast(d, e);
      HeadKeyIsLeast(e, d);
      var k := d[0].timeMark;
      assert WithKey(d, k) == WithKey(e, k);
      assert WithKey(d, k)[0] == d[0] && WithKey(e, k)[0] == e[0];
      forall k' ensures WithKey(d[1..], k') == WithKey(e[1..], k') {
        assert WithKey(d, k') == WithKey(e, k');
        assert k' == k ==> WithKey(d[1..], k') == WithKey(d, k')[1..] && WithKey(e[1..], k') == WithKey(e, k')[1..];
      }
      UniqueUpTo(d[1..], e[1..]);
      assert d == [d[0]] + d[1..] && e == [e[0]] + e[1..];
    }
  }

  lemma HeadKeyIsLeast(d: seq<Record>, e: seq<Record>)
    requires Sorted(d) && SameOrderPerKey(d, e) && |d| == |e| > 0
    ensures d[0].timeMark <= e[0].timeMark
  {
    var k := e[0].timeMark;
    assert WithKey(e, k) != [];
    assert WithKey(d, k) == WithKey(e, k);
    if k < d[0].timeMark {
      WithKeyAbsent(d, k);
    }
  }

  // The merge of merge_blocks: ties take the left record.
  function Merge(l: seq<Record>, r: seq<Record>): (m: seq<Record>)
    ensures |m| == |l| + |r|
  {
    if l == [] then r
    else if r == [] then l
    else if CmpIndex(l[0], r[0]) <= 0 then [l[0]] + Merge(l[1..], r)
    else [r[0]] + Merge(l, r[1..])
  }

  lemma {:induction false} MergeCounts(l: seq<Record>, r: seq<Record>, x: Record)
    ensures Count(Merge(l, r), x) == Count(l, x) + Count(r, x)
  {
    if l != [] && r != [] {
      if CmpIndex(l[0], r[0]) <= 0 {
        MergeCounts(l[1..], r, x);
      } else {
        MergeCounts(l, r[1..], x);
      }
    }
  }

  lemma {:induction false} MergePermutes(l: seq<Record>, r: seq<Record>)
    ensures Permutation(l + r, Merge(l, r))
  {
    forall x ensures Count(l + r, x) == Count(Merge(l, r), x) {
      CountConcat(l, r, x);
      MergeCounts(l, r, x);
    }
  }

  lemma {:induction false} MergeKeepsLowerBound(l: seq<Record>, r: seq<Record>, k: real)
    requires forall i :: 0 <= i < |l| ==> k <= l[i].timeMark
    requires forall i :: 0 <= i < |r| ==> k <= r[i].timeMark
    ensures forall i :: 0 <= i < |Merge(l, r)| ==> k <= Merge(l, r)[i].timeMark
  {
    if l != [] && r != [] {
      if CmpIndex(l[0], r[0]) <= 0 {
        MergeKeepsLowerBound(l[1..], r, k);
      } else {
        MergeKeepsLowerBound(l, r[1..], k);
      }
    }
  }

  lemma PrependLeast(x: Record, s: seq<Record>)
    requires Sorted(s) && forall i :: 0 <= i < |s| ==> x.timeMark <= s[i].timeMark
    ensures Sorted([x] + s)
  {
  }

  lemma {:induction false} MergeSorts(l: seq<Record>, r: seq<Record>)
    requires Sorted(l) && Sorted(r)
    ensures Sorted(Merge(l, r))
  {
    if l != [] && r != [] {
      if CmpIndex(l[0], r[0]) <= 0 {
        MergeSorts(l[1..], r);
        MergeKeepsLowerBound(l[1..], r, l[0].timeMark);
        PrependLeast(l[0], Merge(l[1..], r));
      } else {
        MergeSorts(l, r[1..]);
        MergeKeepsLowerBound(l, r[1..], r[0].timeMark);
        PrependLeast(r[0], Merge(l, r[1..]));
      }
    }
  }

  lemma {:induction false} CountPositive(s: seq<Record>, r: Record)
    ensures Count(s, r) > 0 <==> r in s
  {
    if s != [] {
      assert s == [s[0]] + s[1..];
      CountPositive(s[1..], r);
    }
  }

  // A record in front of a sorted sequence is at most every record that sequence is made of.
  lemma {:induction false} FrontIsLeast(x: Record, m: seq<Record>, s: seq<Record>)
    requires Sorted([x] + m) && Sorted(s) && forall r :: Count(s, r) <= Count(m, r)
    ensures Sorted([x] + s)
  {
    forall i | 0 <= i < |s| ensures x.timeMark <= s[i].timeMark {
      CountPositive(s, s[i]);
      CountPositive(m, s[i]);
      var j :| 0 <= j < |m| && m[j] == s[i];
      assert ([x] + m)[0] == x && ([x] + m)[j + 1] == m[j];
    }
    PrependLeast(x, s);
  }

  // Merging cannot sort an unsorted run: the result is sorted only if both runs were.
  lemma {:induction false} MergeSortedOnlyIf(l: seq<Record>, r: seq<Record>)
    requires Sorted(Merge(l, r))
    ensures Sorted(l) && Sorted(r)
  {
    if l != [] && r != [] {
      if CmpIndex(l[0], r[0]) <= 0 {
        var m := Merge(l[1..], r);
        assert m == ([l[0]] + m)[1..];
        MergeSortedOnlyIf(l[1..], r);
        forall x ensures Count(l[1..], x) <= Count(m, x) { MergeCounts(l[1..], r, x); }
        FrontIsLeast(l[0], m, l[1..]);
        assert l == [l[0]] + l[1..];
      } else {
        var m := Merge(l, r[1..]);
        assert m == ([r[0]] + m)[1..];
        MergeSortedOnlyIf(l, r[1..]);
        forall x ensures Count(r[1..], x) <= Count(m, x) { MergeCounts(l, r[1..], x); }
        FrontIsLeast(r[0], m, r[1..]);
        assert r == [r[0]] + r[1..];
      }
    }
  }

  // Within one key the merge lists the left run's records before the right run's.
  lemma {:induction false} MergeWithKey(l: seq<Record>, r: seq<Record>, k: real)
    requires Sorted(l) && Sorted(r)
    ensures WithKey(Merge(l, r), k) == WithKey(l, k) + WithKey(r, k)
  {
    if l != [] && r != [] {
      if CmpIndex(l[0], r[0]) <= 0 {
        MergeWithKey(l[1..], r, k);
      } else {
        MergeWithKey(l, r[1..], k);
        if k == r[0].timeMark {
          WithKeyAbsent(l, k);
        }
      }
    }
  }

  // Merging two sorted runs gives the stable sort of their concatenation.
  lemma {:induction false} MergeIsStableSort(l: seq<Record>, r: seq<Record>)
    requires Sorted(l) && Sorted(r)
    ensures StableSortOf(l + r, Merge(l, r))
  {
    MergeSorts(l, r);
    forall k ensures WithKey(l + r, k) == WithKey(Merge(l, r), k) {
      WithKeyConcat(l, r, k);
      MergeWithKey(l, r, k);
    }
  }

  // Merging the stable sorts of two adjacent segments gives the stable sort of both together.
  lemma {:induction false} MergeOfStableSorts(a: seq<Record>, l: seq<Record>, b: seq<Record>, r: seq<Record>)
    requires StableSortOf(a, l) && StableSortOf(b, r)
    ensures StableSortOf(a + b, Merge(l, r))
  {
    MergeIsStableSort(l, r);
    SameOrderConcat(a, l, b, r);
    forall k ensures WithKey(a + b, k) == WithKey(Merge(l, r), k) {
      assert WithKey(a + b, k) == WithKey(l + r, k);
    }
  }

  // One way to sort a block.
  function InsertionSorted(s: seq<Record>): (r: seq<Record>)
    ensures |r| == |s|
  {
    if s == [] then [] else Merge([s[0]], InsertionSorted(s[1..]))
  }

  lemma {:induction false} InsertionSorts(s: seq<Record>)
    ensures SortedPermutationOf(s, InsertionSorted(s))
  {
    if s != [] {
      InsertionSorts(s[1..]);
      MergeSorts([s[0]], InsertionSorted(s[1..]));
      MergePermutes([s[0]], InsertionSorted(s[1..]));
      assert [s[0]][1..] == [];
    }
  }
}

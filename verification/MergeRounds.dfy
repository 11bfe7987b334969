/** What the sequence of merge rounds in process_portion adds up to. */
module MergeRounds {
  import opened IndexRecords
  import opened Segments
  import ST = SortThreads
  import MT = MergeThreads

  predicate IsPowerOfTwo(n: nat) {
    n == 1 || (n > 0 && n % 2 == 0 && IsPowerOfTwo(n / 2))
  }

  // The bitwise & of two non-negative ints.
  function BitAnd(x: nat, y: nat): nat {
    if x == 0 || y == 0 then 0 else (if x % 2 == 1 && y % 2 == 1 then 1 else 0) + 2 * BitAnd(x / 2, y / 2)
  }

  // blocks & (blocks - 1) is zero exactly for powers of two.
  lemma {:induction false} PowerOfTwoTest(b: nat)
    requires b > 0
    ensures BitAnd(b, b - 1) == 0 <==> IsPowerOfTwo(b)
  {
    if b % 2 == 0 {
      assert (b - 1) / 2 == b / 2 - 1;
      PowerOfTwoTest(b / 2);
    } else if b > 1 {
      assert (b - 1) / 2 == b / 2;
      SelfAnd(b / 2);
    }
  }

  lemma {:induction false} SelfAnd(x: nat)
    ensures BitAnd(x, x) == x
  {
    if x > 0 {
      SelfAnd(x / 2);
    }
  }

  // Every block of the file is the stable sort of the same block of src.
  ghost predicate StablyBlocked(src: seq<Record>, file: seq<Record>, size: nat, count: nat) {
    |src| == |file| == At(count, size) &&
    forall b: nat :: b < count ==> StableSortOf(Block(src, b, size), Block(file, b, size))
  }

  lemma {:induction false} PairIsDoubleBlock(file: seq<Record>, p: nat, size: nat)
    requires At(2 * p, size) + 2 * size <= |file|
    ensures Block(file, p, 2 * size) == Block(file, 2 * p, size) + Block(file, 2 * p + 1, size)
    ensures Block(file, p, 2 * size) == Part(file, At(2 * p, size), 2 * size)
  {
    AtDoubled(p, size);
    assert At(2 * p + 1, size) == At(2 * p, size) + size;
  }

  // A round halves the number of blocks, doubles their size and keeps them stably sorted.
  lemma RoundHalves(src: seq<Record>, file: seq<Record>, file': seq<Record>, size: nat, count: nat)
    requires StablyBlocked(src, file, size, count) && count % 2 == 0
    requires MT.RoundDone(size, count, file, file')
    ensures StablyBlocked(src, file', 2 * size, count / 2)
  {
    AtDoubled(count / 2, size);
    forall p: nat | p < count / 2
      ensures StableSortOf(Block(src, p, 2 * size), Block(file', p, 2 * size))
    {
      var m := 2 * p;
      MT.PairInBounds(count, size, m);
      PairIsDoubleBlock(src, p, size);
      PairIsDoubleBlock(file', p, size);
      assert m % 2 == 0 && m + 2 <= count;
      assert Part(file', At(m, size), 2 * size) == MT.MergedPair(file, m, size);
      MergeOfStableSorts(Block(src, m, size), Block(file, m, size), Block(src, m + 1, size), Block(file, m + 1, size));
    }
  }

  lemma {:induction false} SortedBlocksStart(file: seq<Record>, orig: seq<Record>, size: nat, count: nat)
    requires ST.BlocksSorted(size, count, orig, file) && |file| == At(count, size)
    ensures StablyBlocked(file, file, size, count)
  {
    forall b: nat | b < count ensures StableSortOf(Block(file, b, size), Block(file, b, size)) {
      assert SortedPermutationOf(Block(orig, b, size), Block(file, b, size));
    }
  }

  lemma OneBlockIsAll(src: seq<Record>, file: seq<Record>, size: nat)
    requires StablyBlocked(src, file, size, 1)
    ensures StableSortOf(src, file)
  {
    assert At(1, size) == At(0, size) + size == size;
    assert Block(src, 0, size) == src && Block(file, 0, size) == file;
  }

  lemma PrefixPermutes(orig: seq<Record>, file: seq<Record>, lo: nat, n: nat)
    requires lo + n <= |file| == |orig|
    requires Permutation(orig[..lo], file[..lo]) && Permutation(Part(orig, lo, n), Part(file, lo, n))
    ensures Permutation(orig[..lo + n], file[..lo + n])
  {
    assert orig[..lo + n] == orig[..lo] + Part(orig, lo, n);
    assert file[..lo + n] == file[..lo] + Part(file, lo, n);
    PermutationsConcat(orig[..lo], file[..lo], Part(orig, lo, n), Part(file, lo, n));
  }

  lemma {:induction false} BlocksPermutePrefix(size: nat, count: nat, orig: seq<Record>, file: seq<Record>, b: nat)
    requires forall i: nat :: i < count ==> Permutation(Block(orig, i, size), Block(file, i, size))
    requires |orig| == |file| == At(count, size) && b <= count
    ensures At(b, size) <= |file| && Permutation(orig[..At(b, size)], file[..At(b, size)])
  {
    AtMonotone(b, count, size);
    if b > 0 {
      BlocksPermutePrefix(size, count, orig, file, b - 1);
      assert Permutation(Block(orig, b - 1, size), Block(file, b - 1, size));
      PrefixPermutes(orig, file, At(b - 1, size), size);
    }
  }

  // Sorting every block of a file permutes the file.
  lemma {:induction false} BlocksPermute(size: nat, count: nat, orig: seq<Record>, file: seq<Record>)
    requires ST.BlocksSorted(size, count, orig, file) && |file| == At(count, size)
    ensures Permutation(orig, file)
  {
    forall b: nat | b < count ensures Permutation(Block(orig, b, size), Block(file, b, size)) {
      assert SortedPermutationOf(Block(orig, b, size), Block(file, b, size));
    }
    BlocksPermutePrefix(size, count, orig, file, count);
    assert file[..At(count, size)] == file && orig[..At(count, size)] == orig;
  }
}

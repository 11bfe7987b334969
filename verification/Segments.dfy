/** Contiguous parts of a record file, addressed the way sort_index.c does. */
module Segments {
  import opened IndexRecords

  // block * block_size, the index of a block's first record (AtIsProduct).
  function At(b: nat, size: nat): nat {
    if b == 0 then 0 else At(b - 1, size) + size
  }

  lemma {:induction false} AtIsProduct(b: nat, size: nat)
    ensures At(b, size) == b * size
  {
    if b > 0 {
      AtIsProduct(b - 1, size);
      assert b * size == (b - 1) * size + size;
    }
  }

  lemma {:induction false} AtMonotone(b: nat, b': nat, size: nat)
    requires b <= b'
    ensures At(b, size) <= At(b', size)
    ensures b < b' ==> At(b, size) + size <= At(b', size)
    decreases b'
  {
    if b < b' {
      AtMonotone(b, b' - 1, size);
    }
  }

  // Two blocks of one size are one block of twice the size.
  lemma {:induction false} AtDoubled(p: nat, size: nat)
    ensures At(2 * p, size) == At(p, 2 * size)
  {
    if p > 0 {
      AtDoubled(p - 1, size);
      assert At(2 * p, size) == At(2 * p - 1, size) + size;
    }
  }

  // The n records starting at lo; empty when they do not all exist.
  function Part(file: seq<Record>, lo: nat, n: nat): seq<Record> {
    if lo + n <= |file| then seq(n, i requires 0 <= i < n => file[lo + i]) else []
  }

  lemma PartOfPart(file: seq<Record>, base: nat, n: nat, lo: nat, size: nat)
    requires base + n <= |file| && lo + size <= n
    ensures Part(Part(file, base, n), lo, size) == Part(file, base + lo, size)
  {
    var part := Part(file, base, n);
    var inner, outer := Part(part, lo, size), Part(file, base + lo, size);
    forall i | 0 <= i < size ensures inner[i] == outer[i] {
      assert inner[i] == part[lo + i];
      assert part[lo + i] == file[base + (lo + i)];
    }
  }

  function Block(file: seq<Record>, b: nat, size: nat): seq<Record> {
    Part(file, At(b, size), size)
  }

  // f and g agree except possibly on the n records starting at lo.
  predicate SameOutside(f: seq<Record>, g: seq<Record>, lo: nat, n: nat) {
    |f| == |g| && forall i :: 0 <= i < |f| && !(lo <= i < lo + n) ==> f[i] == g[i]
  }

  lemma PartUntouched(f: seq<Record>, g: seq<Record>, lo: nat, n: nat, lo': nat, n': nat)
    requires SameOutside(f, g, lo, n)
    requires lo + n <= lo' || lo' + n' <= lo
    ensures Part(f, lo', n') == Part(g, lo', n')
  {
  }

  // The parts that do not meet the n records starting at lo are the same in f and g.
  ghost predicate PartsKept(f: seq<Record>, g: seq<Record>, lo: nat, n: nat) {
    |f| == |g| &&
    forall lo': nat, n': nat {:trigger Part(g, lo', n')} :: lo + n <= lo' || lo' + n' <= lo ==> Part(f, lo', n') == Part(g, lo', n')
  }

  lemma OutsideKept(f: seq<Record>, g: seq<Record>, lo: nat, n: nat)
    requires SameOutside(f, g, lo, n)
    ensures PartsKept(f, g, lo, n)
  {
    forall lo': nat, n': nat | lo + n <= lo' || lo' + n' <= lo ensures Part(f, lo', n') == Part(g, lo', n') {
      PartUntouched(f, g, lo, n, lo', n');
    }
  }

  lemma {:induction false} BlockUntouched(f: seq<Record>, g: seq<Record>, b: nat, b': nat, size: nat)
    requires SameOutside(f, g, At(b, size), size) && b != b'
    ensures Block(f, b', size) == Block(g, b', size)
  {
    if b < b' { AtMonotone(b, b', size); } else { AtMonotone(b', b, size); }
    PartUntouched(f, g, At(b, size), size, At(b', size), size);
  }

  // The pair of blocks starting at block m occupies 2 * size records, all before block m'.
  lemma PairsApart(m: nat, m': nat, size: nat)
    requires m + 2 <= m'
    ensures At(m + 1, size) == At(m, size) + size
    ensures At(m, size) + 2 * size <= At(m', size)
  {
    AtMonotone(m + 2, m', size);
    assert At(m + 2, size) == At(m + 1, size) + size;
  }

  lemma PartsConcat(file: seq<Record>, file': seq<Record>, lo: nat, n: nat)
    requires SameOutside(file, file', lo, n) && lo + n <= |file|
    ensures file == file[..lo] + Part(file, lo, n) + file[lo + n..]
    ensures file' == file[..lo] + Part(file', lo, n) + file[lo + n..]
  {
  }

  // Permuting a part permutes the file.
  lemma PartsPermute(file: seq<Record>, file': seq<Record>, lo: nat, n: nat)
    requires SameOutside(file, file', lo, n) && lo + n <= |file|
    requires Permutation(Part(file, lo, n), Part(file', lo, n))
    ensures Permutation(file, file')
  {
    PartsConcat(file, file', lo, n);
    ConcatPermutes(file[..lo], Part(file, lo, n), Part(file', lo, n), file[lo + n..]);
  }

  lemma PermutationsConcat(a: seq<Record>, a': seq<Record>, b: seq<Record>, b': seq<Record>)
    requires Permutation(a, a') && Permutation(b, b')
    ensures Permutation(a + b, a' + b')
  {
    forall r ensures Count(a + b, r) == Count(a' + b', r) {
      CountConcat(a, b, r);
      CountConcat(a', b', r);
      assert Count(a, r) == Count(a', r) && Count(b, r) == Count(b', r);
    }
  }

  lemma ConcatPermutes(a: seq<Record>, b: seq<Record>, b': seq<Record>, c: seq<Record>)
    requires Permutation(b, b')
    ensures Permutation(a + b + c, a + b' + c)
  {
    PermutationsConcat(a, a, b, b');
    PermutationsConcat(a + b, a + b', c, c);
  }

  // The file after `block` has been copied over the records from lo on.
  function Replaced(file: seq<Record>, lo: nat, block: seq<Record>): (file': seq<Record>)
    ensures |file'| == |file|
  {
    seq(|file|, i requires 0 <= i < |file| => if lo <= i < lo + |block| then block[i - lo] else file[i])
  }

  lemma ReplacedPart(file: seq<Record>, lo: nat, block: seq<Record>)
    requires lo + |block| <= |file|
    ensures SameOutside(file, Replaced(file, lo, block), lo, |block|)
    ensures Part(Replaced(file, lo, block), lo, |block|) == block
  {
  }
}

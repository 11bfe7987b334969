/** Sums over a sequence of processes, one natural number per process: the permits they hold,
    the work they have left, how many of them are at some program point. */
module Totals {

  function Total<T>(f: T -> nat, s: seq<T>): nat {
    if s == [] then 0 else f(s[0]) + Total(f, s[1..])
  }

  lemma {:induction false} TotalUpdate<T>(f: T -> nat, s: seq<T>, t: nat, x: T)
    requires t < |s|
    ensures Total(f, s[t := x]) + f(s[t]) == Total(f, s) + f(x)
  {
    if t > 0 {
      assert s[t := x][1..] == s[1..][t - 1 := x];
      TotalUpdate(f, s[1..], t - 1, x);
    } else {
      assert s[t := x][1..] == s[1..];
    }
  }

  lemma {:induction false} TotalAppend<T>(f: T -> nat, s: seq<T>, x: T)
    ensures Total(f, s + [x]) == Total(f, s) + f(x)
  {
    if s == [] {
      assert s + [x] == [x];
    } else {
      assert (s + [x])[1..] == s[1..] + [x];
      TotalAppend(f, s[1..], x);
    }
  }

  lemma {:induction false} TotalAtLeast<T>(f: T -> nat, s: seq<T>, t: nat)
    requires t < |s|
    ensures f(s[t]) <= Total(f, s)
  {
    if t > 0 {
      TotalAtLeast(f, s[1..], t - 1);
    }
  }

  lemma {:induction false} TotalOfTwo<T>(f: T -> nat, s: seq<T>, t: nat, u: nat)
    requires t < u < |s|
    ensures f(s[t]) + f(s[u]) <= Total(f, s)
  {
    if t > 0 {
      TotalOfTwo(f, s[1..], t - 1, u - 1);
    } else {
      TotalAtLeast(f, s[1..], u - 1);
    }
  }

  lemma {:induction false} TotalZero<T>(f: T -> nat, s: seq<T>)
    requires forall t :: 0 <= t < |s| ==> f(s[t]) == 0
    ensures Total(f, s) == 0
  {
    if s != [] {
      TotalZero(f, s[1..]);
    }
  }
}

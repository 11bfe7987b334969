/** Runs of any system of states and steps: what they keep, and how they go on. */
module Runs {

  // Every state leads to the next.
  ghost predicate Linked<S(!new)>(run: seq<S>, steps: (S, S) -> bool) {
    forall i :: 0 < i < |run| ==> steps(run[i - 1], run[i])
  }

  // What every step keeps, all later states keep.
  lemma {:induction false} Kept<S(!new)>(run: seq<S>, steps: (S, S) -> bool, inv: S -> bool, now: nat, later: nat)
    requires now <= later < |run| && inv(run[now]) && Linked(run, steps)
    requires forall s, s' {:trigger steps(s, s')} :: inv(s) && steps(s, s') ==> inv(s')
    ensures inv(run[later])
    decreases later
  {
    if now < later {
      Kept(run, steps, inv, now, later - 1);
      assert steps(run[later - 1], run[later]);
    }
  }

  // How many of the first `now` steps are of this kind.
  ghost function Times<S(!new)>(run: seq<S>, kind: (S, S) -> bool, now: nat): nat
    requires now < |run|
  {
    if now == 0 then 0 else Times(run, kind, now - 1) + if kind(run[now - 1], run[now]) then 1 else 0
  }

  // s leads to s' over the states of the path.
  ghost predicate Leads<S(!new)>(s: S, steps: (S, S) -> bool, path: seq<S>, s': S) {
    if path == [] then s' == s else steps(s, path[0]) && Leads(path[0], steps, path[1..], s')
  }

  ghost predicate Reaches<S(!new)>(s: S, steps: (S, S) -> bool, s': S) {
    exists path :: Leads(s, steps, path, s')
  }

  lemma Stays<S(!new)>(s: S, steps: (S, S) -> bool)
    ensures Reaches(s, steps, s)
  {
    assert Leads(s, steps, [], s);
  }

  // One more step, at the beginning or at the end.
  lemma StepFirst<S(!new)>(s: S, steps: (S, S) -> bool, s1: S, s': S)
    requires steps(s, s1) && Reaches(s1, steps, s')
    ensures Reaches(s, steps, s')
  {
    var path :| Leads(s1, steps, path, s');
    assert ([s1] + path)[1..] == path;
    assert Leads(s, steps, [s1] + path, s');
  }

  lemma StepLast<S(!new)>(s: S, steps: (S, S) -> bool, s1: S, s': S)
    requires Reaches(s, steps, s1) && steps(s1, s')
    ensures Reaches(s, steps, s')
  {
    var path :| Leads(s, steps, path, s1);
    PathLengthened(s, steps, path, s1, s');
  }

  lemma {:induction false} PathLengthened<S(!new)>(s: S, steps: (S, S) -> bool, path: seq<S>, s1: S, s': S)
    requires Leads(s, steps, path, s1) && steps(s1, s')
    ensures Leads(s, steps, path + [s'], s')
  {
    if path != [] {
      PathLengthened(path[0], steps, path[1..], s1, s');
      assert (path + [s'])[1..] == path[1..] + [s'];
    } else {
      assert Leads(s', steps, [], s');
    }
  }

  // A run goes on to whatever its last state reaches by steps of the same or a narrower kind.
  lemma RunOn<S(!new)>(run: seq<S>, wider: (S, S) -> bool, steps: (S, S) -> bool, s': S) returns (run': seq<S>)
    requires |run| > 0 && Linked(run, wider) && Reaches(run[|run| - 1], steps, s')
    requires forall a, b {:trigger steps(a, b)} :: steps(a, b) ==> wider(a, b)
    ensures Linked(run', wider) && run <= run' && run'[|run'| - 1] == s'
  {
    var path :| Leads(run[|run| - 1], steps, path, s');
    run' := Followed(run, wider, steps, path, s');
  }

  lemma {:induction false} Followed<S(!new)>(run: seq<S>, wider: (S, S) -> bool, steps: (S, S) -> bool, path: seq<S>, s': S)
      returns (run': seq<S>)
    requires |run| > 0 && Linked(run, wider) && Leads(run[|run| - 1], steps, path, s')
    requires forall a, b {:trigger steps(a, b)} :: steps(a, b) ==> wider(a, b)
    ensures Linked(run', wider) && run <= run' && run'[|run'| - 1] == s'
    decreases |path|
  {
    run' := run;
    if path != [] {
      Lengthened(run, wider, path[0]);
      run' := Followed(run + [path[0]], wider, steps, path[1..], s');
    }
  }

  // One more step.
  lemma Lengthened<S(!new)>(run: seq<S>, steps: (S, S) -> bool, s: S)
    requires |run| > 0 && Linked(run, steps) && steps(run[|run| - 1], s)
    ensures Linked(run + [s], steps)
  {
    forall i | 0 < i < |run + [s]| ensures steps((run + [s])[i - 1], (run + [s])[i]) {
      if i < |run| {
        assert steps(run[i - 1], run[i]);
      }
    }
  }
}

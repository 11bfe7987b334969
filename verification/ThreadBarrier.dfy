/** pthread_barrier_t: the last of `parties` arrivals releases everyone of its generation. */
module ThreadBarrier {

  datatype Barrier = Barrier(parties: nat, generation: nat, arrived: set<nat>) {

    // pthread_barrier_wait, the arriving half.
    function Arrive(t: nat): Barrier {
      if |arrived + {t}| == parties then Barrier(parties, generation + 1, {})
      else Barrier(parties, generation, arrived + {t})
    }

    // pthread_barrier_wait, the returning half: `ticket` is the generation at arrival.
    predicate Released(ticket: nat) {
      ticket < generation
    }
  }

  // pthread_barrier_init
  function Fresh(parties: nat): Barrier {
    Barrier(parties, 0, {})
  }

  ghost predicate Below(s: set<nat>, n: nat) {
    forall t :: t in s ==> t < n
  }

  lemma {:induction false} BelowCardinality(s: set<nat>, n: nat)
    requires Below(s, n)
    ensures |s| <= n
    ensures |s| == n ==> forall t: nat :: t < n ==> t in s
  {
    if n == 0 {
      assert s == {};
    } else {
      BelowCardinality(s - {n - 1}, n - 1);
    }
  }

  // The barrier opens exactly when the arriving thread is the only one still missing.
  lemma OpensWhenAllArrived(b: Barrier, t: nat)
    requires Below(b.arrived, b.parties) && t < b.parties
    ensures b.Arrive(t).generation == b.generation + 1 <==>
            forall u: nat :: u < b.parties ==> u == t || u in b.arrived
  {
    var all := b.arrived + {t};
    BelowCardinality(all, b.parties);
    if forall u: nat :: u < b.parties ==> u == t || u in b.arrived {
      forall u: nat | u < b.parties ensures u in all {
      }
      AllBelow(all, b.parties);
    }
    assert forall u :: u in all <==> u == t || u in b.arrived;
  }

  lemma {:induction false} AllBelow(s: set<nat>, n: nat)
    requires forall t: nat :: t < n ==> t in s
    ensures |s| >= n
  {
    if n > 0 {
      AllBelow(s - {n - 1}, n - 1);
    }
  }
}

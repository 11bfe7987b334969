/** The threads of lab5/5.2 (main.c): producers and consumers on two condition variables and a
    mutex, while the parent's commands e and r change the capacity. No thread is being closed. */
module ConditionResize {
  import opened ResizableQueue
  import opened Totals
  import opened Runs

  // The least capacity queue_reduce leaves.
  const LEAST: nat := 0

  datatype Role = Producer | Consumer

  // A thread wants the mutex; tests its condition; sleeps in pthread_cond_wait, without the mutex;
  // has been woken there and wants the mutex back; is about to push or pop, to signal, to unlock.
  datatype Phase = Locking | Testing | Asleep | Woken | Working | Signalling | Unlocking

  datatype Thread = Thread(role: Role, phase: Phase)

  // The parent: at the prompt, or in the command r, which waits like a producer, or e, which
  // signals after unlocking.
  datatype Parent = Prompt
    | RLocking | RTesting | RAsleep | RWoken | RWorking | RUnlocking
    | ELocking | EWorking | EUnlocking | ESignalling

  // len and max_len, queue_mutex (1 when free), the threads, the parent.
  datatype State = State(size: Size, mutex: nat, threads: seq<Thread>, parent: Parent)

  // Whom a signal wakes: nobody only when nobody sleeps on the condition variable.
  datatype Wakes = Nobody | One(thread: nat) | TheParent

  // Spurious: a sleeper wakes without a signal.
  datatype Move = Create(role: Role) | Go(thread: nat, wakes: Wakes) | R | E | ParentGoes(wakes: Wakes) | Spurious(wakes: Wakes)

  // MAX_PRODUCER_THREADS, MAX_CONSUMER_THREADS
  const MAX_THREADS: nat := 10

  function OfRole(role: Role): Thread -> nat {
    (t: Thread) => if t.role == role then 1 else 0
  }

  function Count(threads: seq<Thread>, role: Role): nat {
    Total(OfRole(role), threads)
  }

  // queue_is_full for producers and r, queue_is_empty for consumers
  predicate MustWait(size: Size, role: Role) {
    match role
    case Producer => size.len == size.maxLen
    case Consumer => size.len == 0
  }

  // Some thread of this role sleeps. Producers sleep on free_space_cond, consumers on items_cond.
  predicate SomeAsleep(threads: seq<Thread>, role: Role) {
    exists t :: 0 <= t < |threads| && threads[t] == Thread(role, Asleep)
  }

  // Someone sleeps on the condition variable that threads of this role wait on.
  predicate Sleeper(s: State, role: Role) {
    SomeAsleep(s.threads, role) || (role.Producer? && s.parent.RAsleep?)
  }

  // The signal that threads of this role wait for may wake these.
  predicate CanWake(s: State, role: Role, w: Wakes) {
    match w
    case Nobody => !Sleeper(s, role)
    case One(t) => t < |s.threads| && s.threads[t] == Thread(role, Asleep)
    case TheParent => role.Producer? && s.parent.RAsleep?
  }

  function Wake(s: State, w: Wakes): State {
    match w
    case Nobody => s
    case One(t) => if t < |s.threads| then s.(threads := s.threads[t := s.threads[t].(phase := Woken)]) else s
    case TheParent => s.(parent := RWoken)
  }

  function Other(role: Role): Role {
    if role.Producer? then Consumer else Producer
  }

  predicate Enabled(s: State, m: Move) {
    match m
    case Create(role) => s.parent.Prompt? && Count(s.threads, role) < MAX_THREADS
    case Go(t, w) =>
      t < |s.threads| &&
      (match s.threads[t].phase
       case Locking => s.mutex > 0
       case Asleep => false
       case Woken => s.mutex > 0
       case Signalling => CanWake(s, Other(s.threads[t].role), w)
       case _ => true)
    case R => s.parent.Prompt? && Count(s.threads, Consumer) > 0
    case E => s.parent.Prompt?
    case ParentGoes(w) =>
      (match s.parent
       case Prompt => false
       case RAsleep => false
       case RLocking => s.mutex > 0
       case RWoken => s.mutex > 0
       case ELocking => s.mutex > 0
       case ESignalling => CanWake(s, Producer, w)
       case _ => true)
    case Spurious(w) => w != Nobody && (CanWake(s, Producer, w) || CanWake(s, Consumer, w))
  }

  function NextPhase(size: Size, t: Thread): Phase {
    match t.phase
    case Locking => Testing
    case Testing => if MustWait(size, t.role) then Asleep else Working
    case Asleep => Asleep
    case Woken => Testing
    case Working => Signalling
    case Signalling => Unlocking
    case Unlocking => Locking
  }

  // A thread's next move.
  function ThreadGoes(s: State, t: nat, w: Wakes): State
    requires Enabled(s, Go(t, w))
  {
    var x := s.threads[t];
    var moved := s.(threads := s.threads[t := x.(phase := NextPhase(s.size, x))]);
    match x.phase
    case Locking => moved.(mutex := s.mutex - 1)
    case Testing => if MustWait(s.size, x.role) then moved.(mutex := s.mutex + 1) else moved
    case Asleep => moved
    case Woken => moved.(mutex := s.mutex - 1)
    case Working => moved.(size := if x.role.Producer? then PushedSize(s.size) else PoppedSize(s.size))
    case Signalling => Wake(moved, w)
    case Unlocking => moved.(mutex := s.mutex + 1)
  }

  function ParentMoves(s: State, w: Wakes): State
    requires Enabled(s, ParentGoes(w))
  {
    match s.parent
    case Prompt => s
    case RLocking => s.(parent := RTesting, mutex := s.mutex - 1)
    case RTesting => if MustWait(s.size, Producer) then s.(parent := RAsleep, mutex := s.mutex + 1) else s.(parent := RWorking)
    case RAsleep => s
    case RWoken => s.(parent := RTesting, mutex := s.mutex - 1)
    case RWorking => s.(parent := RUnlocking, size := ReducedSize(s.size, LEAST))
    case RUnlocking => s.(parent := Prompt, mutex := s.mutex + 1)
    case ELocking => s.(parent := EWorking, mutex := s.mutex - 1)
    case EWorking => s.(parent := EUnlocking, size := ExpandedSize(s.size))
    case EUnlocking => s.(parent := ESignalling, mutex := s.mutex + 1)
    case ESignalling => Wake(s.(parent := Prompt), w)
  }

  function Next(s: State, m: Move): State
    requires Enabled(s, m)
  {
    match m
    case Create(role) => s.(threads := s.threads + [Thread(role, Locking)])
    case Go(t, w) => ThreadGoes(s, t, w)
    case R => s.(parent := RLocking)
    case E => s.(parent := ELocking)
    case ParentGoes(w) => ParentMoves(s, w)
    case Spurious(w) => Wake(s, w)
  }

  function HoldsMutex(t: Thread): nat {
    if t.phase.Testing? || t.phase.Working? || t.phase.Signalling? || t.phase.Unlocking? then 1 else 0
  }

  function ParentHoldsMutex(p: Parent): nat {
    if p.RTesting? || p.RWorking? || p.RUnlocking? || p.EWorking? || p.EUnlocking? then 1 else 0
  }

  // Producers woken or about to take a slot, and consumers about to signal one.
  function FreeToken(t: Thread): nat {
    if t.role.Producer? && (t.phase.Woken? || t.phase.Testing? || t.phase.Working?) then 1
    else if t.role.Consumer? && t.phase.Signalling? then 1
    else 0
  }

  // Consumers woken or about to take a message, and producers about to signal one.
  function ItemToken(t: Thread): nat {
    if t.role.Consumer? && (t.phase.Woken? || t.phase.Testing? || t.phase.Working?) then 1
    else if t.role.Producer? && t.phase.Signalling? then 1
    else 0
  }

  // The parent woken in r or about to reduce, or owing the signal of e.
  function ParentToken(p: Parent): nat {
    if p.RWoken? || p.RTesting? || p.RWorking? || p.EUnlocking? || p.ESignalling? then 1 else 0
  }

  // No wakeup is lost: while someone sleeps, each free slot, or each message, is accounted for.
  predicate NoLostWakeup(s: State) {
    && (Sleeper(s, Producer) ==> s.size.maxLen - s.size.len <= Total(FreeToken, s.threads) + ParentToken(s.parent))
    && (Sleeper(s, Consumer) ==> s.size.len <= Total(ItemToken, s.threads))
  }

  predicate WorkPossible(s: State) {
    && (forall t :: 0 <= t < |s.threads| && s.threads[t].phase.Working? ==> !MustWait(s.size, s.threads[t].role))
    && (s.parent.RWorking? ==> !MustWait(s.size, Producer))
    && forall t :: 0 <= t < |s.threads| && s.threads[t].phase.Signalling? ==> s.size.maxLen > 0
  }

  predicate MutexInv(s: State) {
    s.mutex + Total(HoldsMutex, s.threads) + ParentHoldsMutex(s.parent) == 1
  }

  predicate Inv(s: State) {
    s.size.len <= s.size.maxLen && MutexInv(s) && WorkPossible(s) && NoLostWakeup(s)
  }

  predicate Initial(s: State) {
    s == State(Size(0, QUEUE_BASE_SIZE), 1, [], Prompt)
  }

  lemma TotalsMove(ts: seq<Thread>, t: nat, x: Thread)
    requires t < |ts|
    ensures Total(HoldsMutex, ts[t := x]) + HoldsMutex(ts[t]) == Total(HoldsMutex, ts) + HoldsMutex(x)
    ensures Total(FreeToken, ts[t := x]) + FreeToken(ts[t]) == Total(FreeToken, ts) + FreeToken(x)
    ensures Total(ItemToken, ts[t := x]) + ItemToken(ts[t]) == Total(ItemToken, ts) + ItemToken(x)
  {
    TotalUpdate(HoldsMutex, ts, t, x);
    TotalUpdate(FreeToken, ts, t, x);
    TotalUpdate(ItemToken, ts, t, x);
  }

  // One mutex: who holds it holds it alone.
  lemma HeldAlone(s: State, t: nat)
    requires MutexInv(s) && t < |s.threads| && HoldsMutex(s.threads[t]) == 1
    ensures s.mutex == 0 && ParentHoldsMutex(s.parent) == 0
    ensures forall u :: 0 <= u < |s.threads| && u != t ==> HoldsMutex(s.threads[u]) == 0
  {
    TotalAtLeast(HoldsMutex, s.threads, t);
    forall u | 0 <= u < |s.threads| && u != t ensures HoldsMutex(s.threads[u]) == 0 {
      if t < u { TotalOfTwo(HoldsMutex, s.threads, t, u); } else { TotalOfTwo(HoldsMutex, s.threads, u, t); }
    }
  }

  lemma ParentHoldsAlone(s: State)
    requires MutexInv(s) && ParentHoldsMutex(s.parent) == 1
    ensures s.mutex == 0 && forall u :: 0 <= u < |s.threads| ==> HoldsMutex(s.threads[u]) == 0
  {
    forall u | 0 <= u < |s.threads| ensures HoldsMutex(s.threads[u]) == 0 {
      TotalAtLeast(HoldsMutex, s.threads, u);
    }
  }

  // Waking a sleeper turns it into a token; who sleeps otherwise does not change.
  lemma WakeKeeps(s: State, role: Role, w: Wakes)
    requires CanWake(s, role, w)
    ensures MutexInv(s) ==> MutexInv(Wake(s, w))
    ensures WorkPossible(s) ==> WorkPossible(Wake(s, w))
    ensures Wake(s, w).size == s.size
    ensures var s' := Wake(s, w);
      && Total(FreeToken, s'.threads) + ParentToken(s'.parent) ==
         Total(FreeToken, s.threads) + ParentToken(s.parent) + (if role.Producer? && w != Nobody then 1 else 0)
      && Total(ItemToken, s'.threads) == Total(ItemToken, s.threads) + (if role.Consumer? && w != Nobody then 1 else 0)
    ensures forall r :: Sleeper(Wake(s, w), r) ==> Sleeper(s, r)
  {
    if w.One? {
      TotalsMove(s.threads, w.thread, s.threads[w.thread].(phase := Woken));
      forall r | Sleeper(Wake(s, w), r) ensures Sleeper(s, r) {
        SleepersOnly(s.threads, Wake(s, w).threads, r);
      }
    }
  }

  // If every sleeper afterwards slept before, somebody sleeps only if somebody did.
  lemma SleepersOnly(ts: seq<Thread>, ts': seq<Thread>, r: Role)
    requires |ts| == |ts'| && forall t :: 0 <= t < |ts| && ts'[t] == Thread(r, Asleep) ==> ts[t] == ts'[t]
    ensures SomeAsleep(ts', r) ==> SomeAsleep(ts, r)
  {
  }

  lemma SignalKeeps(s: State, t: nat, w: Wakes)
    requires Inv(s) && Enabled(s, Go(t, w)) && s.threads[t].phase.Signalling?
    ensures Inv(Next(s, Go(t, w)))
  {
    var x := s.threads[t];
    var moved := s.(threads := s.threads[t := x.(phase := Unlocking)]);
    TotalsMove(s.threads, t, x.(phase := Unlocking));
    forall r ensures Sleeper(moved, r) <==> Sleeper(s, r) {
      SleepersOnly(s.threads, moved.threads, r);
      SleepersOnly(moved.threads, s.threads, r);
    }
    WakeKeeps(moved, Other(x.role), w);
  }

  lemma WorkKeeps(s: State, t: nat, w: Wakes)
    requires Inv(s) && Enabled(s, Go(t, w)) && s.threads[t].phase.Working?
    ensures Inv(Next(s, Go(t, w)))
  {
    var x, s' := s.threads[t], Next(s, Go(t, w));
    TotalsMove(s.threads, t, x.(phase := Signalling));
    HeldAlone(s, t);
    assert !MustWait(s.size, x.role);
    forall r ensures Sleeper(s', r) ==> Sleeper(s, r) {
      SleepersOnly(s.threads, s'.threads, r);
    }
  }

  lemma OtherMoveKeeps(s: State, t: nat, w: Wakes)
    requires Inv(s) && Enabled(s, Go(t, w)) && !s.threads[t].phase.Working? && !s.threads[t].phase.Signalling?
    ensures Inv(Next(s, Go(t, w)))
  {
    OtherMoveHolds(s, t, w);
    OtherMoveWakes(s, t, w);
  }

  lemma OtherMoveHolds(s: State, t: nat, w: Wakes)
    requires Inv(s) && Enabled(s, Go(t, w)) && !s.threads[t].phase.Working? && !s.threads[t].phase.Signalling?
    ensures Next(s, Go(t, w)).size == s.size && MutexInv(Next(s, Go(t, w))) && WorkPossible(Next(s, Go(t, w)))
  {
    var x := s.threads[t];
    TotalsMove(s.threads, t, x.(phase := NextPhase(s.size, x)));
    OtherMoveWorks(s, t, w);
  }

  lemma OtherMoveWorks(s: State, t: nat, w: Wakes)
    requires WorkPossible(s) && Enabled(s, Go(t, w)) && !s.threads[t].phase.Working? && !s.threads[t].phase.Signalling?
    ensures WorkPossible(Next(s, Go(t, w)))
  {
  }

  lemma OtherMoveWakes(s: State, t: nat, w: Wakes)
    requires Inv(s) && Enabled(s, Go(t, w)) && !s.threads[t].phase.Working? && !s.threads[t].phase.Signalling?
    ensures NoLostWakeup(Next(s, Go(t, w)))
  {
    var x, s' := s.threads[t], Next(s, Go(t, w));
    var x' := x.(phase := NextPhase(s.size, x));
    TotalsMove(s.threads, t, x');
    forall r | r != x.role || !x'.phase.Asleep? ensures Sleeper(s', r) ==> Sleeper(s, r) {
      SleepersOnly(s.threads, s'.threads, r);
    }
  }

  lemma ParentKeeps(s: State, w: Wakes)
    requires Inv(s) && Enabled(s, ParentGoes(w))
    ensures Inv(Next(s, ParentGoes(w)))
  {
    if s.parent.ESignalling? {
      OwedSignalKeeps(s, w);
    } else if ParentHoldsMutex(s.parent) == 1 {
      ParentHoldsAlone(s);
    }
  }

  lemma OwedSignalKeeps(s: State, w: Wakes)
    requires Inv(s) && Enabled(s, ParentGoes(w)) && s.parent.ESignalling?
    ensures Inv(Next(s, ParentGoes(w)))
  {
    WakeKeeps(s.(parent := Prompt), Producer, w);
  }

  lemma NextInv(s: State, m: Move)
    requires Inv(s) && Enabled(s, m)
    ensures Inv(Next(s, m))
  {
    match m
    case Create(role) => CreateKeeps(s, role);
    case Go(t, w) =>
      if s.threads[t].phase.Signalling? {
        SignalKeeps(s, t, w);
      } else if s.threads[t].phase.Working? {
        WorkKeeps(s, t, w);
      } else {
        OtherMoveKeeps(s, t, w);
      }
    case R =>
    case E =>
    case ParentGoes(w) => ParentKeeps(s, w);
    case Spurious(w) => WakeKeeps(s, if CanWake(s, Producer, w) then Producer else Consumer, w);
  }

  lemma CreateKeeps(s: State, role: Role)
    requires Inv(s)
    ensures Inv(s.(threads := s.threads + [Thread(role, Locking)]))
  {
    var x := Thread(role, Locking);
    TotalAppend(HoldsMutex, s.threads, x);
    TotalAppend(FreeToken, s.threads, x);
    TotalAppend(ItemToken, s.threads, x);
    forall r | SomeAsleep(s.threads + [x], r) ensures SomeAsleep(s.threads, r) {
      var t :| 0 <= t < |s.threads + [x]| && (s.threads + [x])[t] == Thread(r, Asleep);
      assert s.threads[t] == Thread(r, Asleep);
    }
  }

  ghost predicate Steps(s: State, s': State) {
    exists m {:trigger Enabled(s, m)} :: Enabled(s, m) && s' == Next(s, m)
  }

  ghost predicate IsRun(run: seq<State>) {
    && |run| > 0 && Initial(run[0])
    && forall i :: 0 < i < |run| ==> Steps(run[i - 1], run[i])
  }

  lemma RunInv(run: seq<State>, i: nat)
    requires IsRun(run) && i < |run|
    ensures Inv(run[i])
  {
    forall s, s' | Inv(s) && Steps(s, s') ensures Inv(s') {
      var m :| Enabled(s, m) && s' == Next(s, m);
      NextInv(s, m);
    }
    Kept(run, Steps, Inv, 0, i);
  }

  // The commands e and r as the parent begins them.
  predicate BeginsE(s: State, s': State) {
    s.parent.Prompt? && s'.parent.ELocking?
  }

  predicate BeginsR(s: State, s': State) {
    s.parent.Prompt? && s'.parent.RLocking?
  }

  // The parent has begun r and not reduced yet.
  function OwesReduce(p: Parent): nat {
    if p.RLocking? || p.RTesting? || p.RAsleep? || p.RWoken? || p.RWorking? then 1 else 0
  }

  // The capacity when the command under way, if any, has resized the queue.
  function Committed(s: State): int {
    s.size.maxLen - OwesReduce(s.parent) + if s.parent.ELocking? || s.parent.EWorking? then 1 else 0
  }

  // A thread of this role does its push or pop.
  predicate Works(role: Role, s: State, s': State) {
    exists t :: 0 <= t < |s.threads| && t < |s'.threads| && s.threads[t] == Thread(role, Working) && s'.threads[t] == Thread(role, Signalling)
  }

  ghost function WorksAs(role: Role): (State, State) -> bool {
    (s, s') => Works(role, s, s')
  }

  // The capacity is what the commands have made it, each e adding one and each r taking one off;
  // and what is in the queue is what was pushed and not popped.
  lemma {:induction false} CommandsCount(run: seq<State>, now: nat)
    requires IsRun(run) && now < |run|
    ensures Committed(run[now]) == QUEUE_BASE_SIZE + Times(run, BeginsE, now) - Times(run, BeginsR, now)
    ensures run[now].size.len + Times(run, WorksAs(Consumer), now) == Times(run, WorksAs(Producer), now)
  {
    if now > 0 {
      CommandsCount(run, now - 1);
      RunInv(run, now - 1);
      assert Steps(run[now - 1], run[now]);
      CapacityStep(run[now - 1], run[now]);
      LengthStep(run[now - 1], run[now]);
    }
  }

  lemma CapacityStep(s: State, s': State)
    requires Inv(s) && Steps(s, s')
    ensures Committed(s') == Committed(s) + (if BeginsE(s, s') then 1 else 0) - if BeginsR(s, s') then 1 else 0
  {
    var m :| Enabled(s, m) && s' == Next(s, m);
    if m.Go? {
      ThreadCommitsNothing(s, m.thread, m.wakes);
    } else if m.ParentGoes? {
      ParentCommitsNothing(s, m.wakes);
    }
  }

  lemma ThreadCommitsNothing(s: State, t: nat, w: Wakes)
    requires Enabled(s, Go(t, w))
    ensures var s' := Next(s, Go(t, w)); Committed(s') == Committed(s) && !BeginsE(s, s') && !BeginsR(s, s')
  {
  }

  lemma ParentCommitsNothing(s: State, w: Wakes)
    requires Inv(s) && Enabled(s, ParentGoes(w))
    ensures var s' := Next(s, ParentGoes(w)); Committed(s') == Committed(s) && !BeginsE(s, s') && !BeginsR(s, s')
  {
  }

  lemma LengthStep(s: State, s': State)
    requires Inv(s) && Steps(s, s')
    ensures s'.size.len == s.size.len + (if Works(Producer, s, s') then 1 else 0) - if Works(Consumer, s, s') then 1 else 0
  {
    var m :| Enabled(s, m) && s' == Next(s, m);
    if m.Go? && s.threads[m.thread].phase.Working? {
      WorkCounts(s, m.thread, m.wakes);
    } else {
      OthersDoNoWork(s, m, Producer);
      OthersDoNoWork(s, m, Consumer);
    }
  }

  lemma OthersDoNoWork(s: State, m: Move, role: Role)
    requires Enabled(s, m) && (m.Go? ==> !s.threads[m.thread].phase.Working?)
    ensures Next(s, m).size.len == s.size.len && !Works(role, s, Next(s, m))
  {
  }

  lemma WorkCounts(s: State, t: nat, w: Wakes)
    requires Enabled(s, Go(t, w)) && s.threads[t].phase.Working?
    ensures forall role :: Works(role, s, Next(s, Go(t, w))) <==> role == s.threads[t].role
  {
    assert Works(s.threads[t].role, s, Next(s, Go(t, w)));
  }

  // Only a create changes how many threads there are.
  lemma CountStep(s: State, m: Move, role: Role)
    requires Enabled(s, m)
    ensures Count(Next(s, m).threads, role) == Count(s.threads, role) + if m == Create(role) then 1 else 0
  {
    match m
    case Create(r) => TotalAppend(OfRole(role), s.threads, Thread(r, Locking));
    case Go(t, w) =>
      var x := s.threads[t].(phase := NextPhase(s.size, s.threads[t]));
      TotalUpdate(OfRole(role), s.threads, t, x);
      WakeCounts(s.(threads := s.threads[t := x]), w, role);
    case ParentGoes(w) => WakeCounts(s.(parent := Prompt), w, role);
    case Spurious(w) => WakeCounts(s, w, role);
    case _ =>
  }

  lemma WakeCounts(s: State, w: Wakes, role: Role)
    ensures Count(Wake(s, w).threads, role) == Count(s.threads, role)
  {
    if w.One? && w.thread < |s.threads| {
      TotalUpdate(OfRole(role), s.threads, w.thread, s.threads[w.thread].(phase := Woken));
    }
  }

  // Whatever the threads are doing, a command is taken at the prompt: e always, r if there is a
  // consumer, and a new thread if its role has room.
  lemma CommandsTaken(s: State, role: Role)
    requires s.parent.Prompt?
    ensures exists s' :: Steps(s, s') && BeginsE(s, s')
    ensures (exists s' :: Steps(s, s') && BeginsR(s, s')) <==> Count(s.threads, Consumer) > 0
    ensures (exists s' :: Steps(s, s') && Count(s'.threads, role) > Count(s.threads, role)) <==> Count(s.threads, role) < MAX_THREADS
  {
    assert Enabled(s, E) && Steps(s, Next(s, E)) && BeginsE(s, Next(s, E));
    if Count(s.threads, Consumer) > 0 {
      assert Enabled(s, R) && Steps(s, Next(s, R)) && BeginsR(s, Next(s, R));
    }
    if Count(s.threads, role) < MAX_THREADS {
      CountStep(s, Create(role), role);
      assert Enabled(s, Create(role)) && Steps(s, Next(s, Create(role)));
    }
    forall s' | Steps(s, s')
      ensures BeginsR(s, s') ==> Count(s.threads, Consumer) > 0
      ensures Count(s'.threads, role) > Count(s.threads, role) ==> Count(s.threads, role) < MAX_THREADS
    {
      var m :| Enabled(s, m) && s' == Next(s, m);
      CountStep(s, m, role);
    }
  }

  // No role ever has more than MAX_THREADS threads.
  lemma {:induction false} ThreadsLimited(run: seq<State>, now: nat, role: Role)
    requires IsRun(run) && now < |run|
    ensures Count(run[now].threads, role) <= MAX_THREADS
  {
    if now > 0 {
      ThreadsLimited(run, now - 1, role);
      assert Steps(run[now - 1], run[now]);
      var m :| Enabled(run[now - 1], m) && run[now] == Next(run[now - 1], m);
      CountStep(run[now - 1], m, role);
    }
  }

  lemma NoConsumerBefore(s: State, s': State)
    requires Steps(s, s') && Count(s'.threads, Consumer) == 0
    ensures Count(s.threads, Consumer) == 0 && !BeginsR(s, s')
  {
    var m :| Enabled(s, m) && s' == Next(s, m);
    CountStep(s, m, Consumer);
  }

  lemma {:induction false} NoRWithoutConsumer(run: seq<State>, now: nat)
    requires IsRun(run) && now < |run| && Count(run[now].threads, Consumer) == 0
    ensures Times(run, BeginsR, now) == 0
  {
    if now > 0 {
      assert Steps(run[now - 1], run[now]);
      NoConsumerBefore(run[now - 1], run[now]);
      NoRWithoutConsumer(run, now - 1);
    }
  }

  // Before there is a consumer no r has an effect.
  lemma NoReduceWithoutConsumer(run: seq<State>, now: nat)
    requires IsRun(run) && now < |run| && Count(run[now].threads, Consumer) == 0
    ensures Times(run, BeginsR, now) == 0
    ensures Committed(run[now]) == QUEUE_BASE_SIZE + Times(run, BeginsE, now)
  {
    NoRWithoutConsumer(run, now);
    CommandsCount(run, now);
  }

  // n moves of thread t and of nobody else lead from s to s'; when it signals, it wakes w.
  predicate Alone(s: State, t: nat, w: Wakes, n: nat, s': State)
    decreases n
  {
    if n == 0 then s' == s else Enabled(s, Go(t, w)) && Alone(Next(s, Go(t, w)), t, w, n - 1, s')
  }

  function MovesLeft(p: Phase): nat
    requires !p.Asleep?
  {
    match p
    case Locking => 5
    case Woken => 5
    case Testing => 4
    case Working => 3
    case Signalling => 2
    case Unlocking => 1
  }

  lemma SameSleepers(s: State, s': State, t: nat, role: Role, w: Wakes)
    requires t < |s.threads| == |s'.threads| && s'.threads == s.threads[t := s'.threads[t]] && s'.parent == s.parent
    requires !s'.threads[t].phase.Asleep? && !s.threads[t].phase.Asleep? && CanWake(s, role, w)
    ensures CanWake(s', role, w)
  {
    SleepersOnly(s.threads, s'.threads, role);
  }

  // What is left of its round of a thread that needs to wait for nothing.
  lemma {:induction false} RestAlone(s: State, t: nat, w: Wakes) returns (s': State)
    requires t < |s.threads| && !s.threads[t].phase.Asleep? && s.mutex == 1 - HoldsMutex(s.threads[t])
    requires s.threads[t].phase.Locking? || s.threads[t].phase.Woken? || s.threads[t].phase.Testing? ==> !MustWait(s.size, s.threads[t].role)
    requires if s.threads[t].phase.Unlocking? then w == Nobody else CanWake(s, Other(s.threads[t].role), w)
    ensures Alone(s, t, w, MovesLeft(s.threads[t].phase), s')
    ensures s'.mutex == 1 && s'.parent == Wake(s, w).parent
    ensures s'.threads == Wake(s, w).threads[t := Thread(s.threads[t].role, Locking)]
    ensures s'.size == if s.threads[t].phase.Signalling? || s.threads[t].phase.Unlocking? then s.size
                       else if s.threads[t].role.Producer? then PushedSize(s.size) else PoppedSize(s.size)
    decreases MovesLeft(s.threads[t].phase)
  {
    s' := Next(s, Go(t, w));
    if !s.threads[t].phase.Unlocking? {
      if !s.threads[t].phase.Signalling? {
        SameSleepers(s, s', t, Other(s.threads[t].role), w);
      }
      s' := RestAlone(s', t, if s.threads[t].phase.Signalling? then Nobody else w);
    }
  }

  // A thread left alone that finds the mutex free and need not wait: its round pushes or pops one
  // message and wakes any one sleeper on the other condition variable, if there is one.
  lemma RoundAlone(s: State, t: nat, w: Wakes) returns (s': State)
    requires s.mutex == 1 && t < |s.threads| && s.threads[t].phase.Locking?
    requires if s.threads[t].role.Producer? then s.size.len < s.size.maxLen else s.size.len > 0
    requires w.One? ==> w.thread < |s.threads| && s.threads[w.thread] == Thread(Other(s.threads[t].role), Asleep)
    requires w.TheParent? ==> s.threads[t].role.Consumer? && s.parent.RAsleep?
    requires w.Nobody? ==> (s.threads[t].role.Consumer? ==> !s.parent.RAsleep?) &&
                           forall u :: 0 <= u < |s.threads| ==> s.threads[u] != Thread(Other(s.threads[t].role), Asleep)
    ensures Alone(s, t, w, 5, s')
    ensures s' == Wake(s, w).(size := s.size.(len := if s.threads[t].role.Producer? then s.size.len + 1 else s.size.len - 1))
  {
    s' := RestAlone(s, t, w);
    assert s'.threads == Wake(s, w).threads;
  }

  // One that must wait sleeps, and frees the mutex.
  lemma SleepsAlone(s: State, t: nat) returns (s': State)
    requires s.mutex == 1 && t < |s.threads| && (s.threads[t].phase.Locking? || s.threads[t].phase.Woken?)
    requires MustWait(s.size, s.threads[t].role)
    ensures Alone(s, t, Nobody, 2, s') && s' == s.(threads := s.threads[t := Thread(s.threads[t].role, Asleep)])
  {
    var s1 := Next(s, Go(t, Nobody));
    s' := Next(s1, Go(t, Nobody));
    assert s'.threads == s.threads[t := Thread(s.threads[t].role, Asleep)];
    assert Alone(s1, t, Nobody, 1, s');
  }

  // So a spurious wakeup changes nothing.
  lemma SpuriousSleepsAgain(s: State, t: nat)
    requires s.mutex == 1 && t < |s.threads| && s.threads[t].phase.Asleep? && MustWait(s.size, s.threads[t].role)
    ensures Enabled(s, Spurious(One(t))) && Alone(Next(s, Spurious(One(t))), t, Nobody, 2, s)
  {
    var s' := SleepsAlone(Next(s, Spurious(One(t))), t);
    assert s'.threads == s.threads;
  }

  lemma SpuriousParentSleepsAgain(s: State)
    requires s.mutex == 1 && s.parent.RAsleep? && s.size.len == s.size.maxLen
    ensures Enabled(s, Spurious(TheParent))
    ensures var s1 := Next(s, Spurious(TheParent));
      Enabled(s1, ParentGoes(Nobody)) && Enabled(Next(s1, ParentGoes(Nobody)), ParentGoes(Nobody)) &&
      Next(Next(s1, ParentGoes(Nobody)), ParentGoes(Nobody)) == s
  {
  }

  // In every reachable state: a sleeper on free_space_cond implies that the free slots are at most
  // the producers and the r that are awake for them and the signals under way, and likewise for
  // items_cond and the messages; and nobody pushes when full, pops when empty or reduces when full.
  lemma WakeupsAccounted(run: seq<State>, now: nat)
    requires IsRun(run) && now < |run|
    ensures NoLostWakeup(run[now]) && WorkPossible(run[now]) && run[now].size.len <= run[now].size.maxLen
  {
    RunInv(run, now);
  }

  // Moves that need neither a new command nor a spurious wakeup.
  predicate Proceeds(m: Move) {
    m.Go? || m.ParentGoes?
  }

  predicate AllAsleep(s: State) {
    && (forall t :: 0 <= t < |s.threads| ==> s.threads[t].phase.Asleep?)
    && (s.parent.Prompt? || s.parent.RAsleep?)
  }

  // Unless all sleep and the parent is at the prompt or asleep too, somebody can proceed.
  lemma SomebodyProceeds(s: State)
    requires MutexInv(s) && !AllAsleep(s)
    ensures exists m {:trigger Enabled(s, m)} :: Proceeds(m) && Enabled(s, m)
  {
    if t :| 0 <= t < |s.threads| && HoldsMutex(s.threads[t]) == 1 {
      var w := SomeWake(s, Other(s.threads[t].role));
      assert Enabled(s, Go(t, w));
    } else if ParentHoldsMutex(s.parent) == 1 {
      assert Enabled(s, ParentGoes(Nobody));
    } else {
      TotalZero(HoldsMutex, s.threads);
      if t :| 0 <= t < |s.threads| && !s.threads[t].phase.Asleep? {
        assert Enabled(s, Go(t, Nobody));
      } else {
        var w := SomeWake(s, Producer);
        assert Enabled(s, ParentGoes(w));
      }
    }
  }

  // Some choice that a signal has.
  lemma SomeWake(s: State, role: Role) returns (w: Wakes)
    ensures CanWake(s, role, w)
  {
    if t :| 0 <= t < |s.threads| && s.threads[t] == Thread(role, Asleep) {
      w := One(t);
    } else if role.Producer? && s.parent.RAsleep? {
      w := TheParent;
    } else {
      w := Nobody;
    }
  }

  lemma AllSleepAtZero(s: State, producer: nat, consumer: nat)
    requires Inv(s) && AllAsleep(s)
    requires producer < |s.threads| && s.threads[producer].role.Producer?
    requires consumer < |s.threads| && s.threads[consumer].role.Consumer?
    ensures s.size.maxLen == 0
  {
    TotalZero(FreeToken, s.threads);
    TotalZero(ItemToken, s.threads);
    assert s.threads[producer] == Thread(Producer, Asleep) && s.threads[consumer] == Thread(Consumer, Asleep);
    assert Sleeper(s, Producer) && Sleeper(s, Consumer);
  }

  // With a producer and a consumer, all sleep at once only at capacity 0: at any other capacity
  // somebody can proceed.
  lemma AllSleepOnlyAtZero(run: seq<State>, now: nat, producer: nat, consumer: nat)
    requires IsRun(run) && now < |run|
    requires producer < |run[now].threads| && run[now].threads[producer].role.Producer?
    requires consumer < |run[now].threads| && run[now].threads[consumer].role.Consumer?
    ensures AllAsleep(run[now]) ==> run[now].size.maxLen == 0
    ensures run[now].size.maxLen >= 1 ==> exists m {:trigger Enabled(run[now], m)} :: Proceeds(m) && Enabled(run[now], m)
  {
    RunInv(run, now);
    if AllAsleep(run[now]) {
      AllSleepAtZero(run[now], producer, consumer);
    } else {
      SomebodyProceeds(run[now]);
    }
  }

  predicate WaitsInR(p: Parent) {
    p.RLocking? || p.RTesting? || p.RAsleep? || p.RWoken?
  }

  // Capacity 0 with the parent waiting in r.
  predicate Dead(s: State) {
    s.size.maxLen == 0 && WaitsInR(s.parent)
  }

  predicate SomeoneWorks(s: State) {
    exists t :: 0 <= t < |s.threads| && s.threads[t].phase.Working?
  }

  // No thread is at work or about to signal either.
  predicate Stopped(s: State) {
    Dead(s) && s.size.len == 0 &&
    forall t :: 0 <= t < |s.threads| ==> !s.threads[t].phase.Working? && !s.threads[t].phase.Signalling?
  }

  lemma DeadIsStopped(s: State)
    requires Inv(s) && Dead(s)
    ensures Stopped(s)
  {
    assert MustWait(s.size, Producer) && MustWait(s.size, Consumer);
  }

  lemma StoppedKept(s: State, m: Move)
    requires Stopped(s) && Enabled(s, m)
    ensures Stopped(Next(s, m))
  {
  }

  lemma StoppedStays(s: State, s': State)
    requires Stopped(s) && Steps(s, s')
    ensures Stopped(s')
  {
    var m :| Enabled(s, m) && s' == Next(s, m);
    StoppedKept(s, m);
  }

  // The parent never gets back to its prompt, and no thread works or signals any more.
  lemma DeadForever(run: seq<State>, now: nat, later: nat)
    requires IsRun(run) && now <= later < |run| && Dead(run[now])
    ensures Stopped(run[later])
  {
    RunInv(run, now);
    DeadIsStopped(run[now]);
    forall s, s' | Stopped(s) && Steps(s, s') ensures Stopped(s') {
      StoppedStays(s, s');
    }
    Kept(run, Steps, Stopped, now, later);
  }

  // Only an r command leads there.
  lemma AliveKept(s: State, m: Move)
    requires Enabled(s, m) && Calm(m) && !Dead(s) && WorkPossible(s)
    ensures !Dead(Next(s, m))
  {
  }

  // Moves with no spurious wakeup, no r command and no new thread.
  predicate Calm(m: Move) {
    Proceeds(m) || m.E?
  }

  ghost predicate CalmStep(s: State, s': State) {
    exists m {:trigger Enabled(s, m)} :: Enabled(s, m) && Calm(m) && s' == Next(s, m)
  }

  lemma GoesCalmly(from: State, s: State, m: Move) returns (s': State)
    requires Reaches(from, CalmStep, s) && Enabled(s, m) && Calm(m)
    ensures Reaches(from, CalmStep, s') && s' == Next(s, m)
  {
    s' := Next(s, m);
    assert CalmStep(s, s');
    StepLast(from, CalmStep, s, s');
  }

  // Moves a thread or the parent has left before it works, sleeps or is at the prompt.
  function Weight(t: Thread): nat {
    match t.phase
    case Locking => 2
    case Testing => 1
    case Asleep => 0
    case Woken => 2
    case Working => 0
    case Signalling => 8
    case Unlocking => 3
  }

  function ParentWeight(p: Parent): nat {
    match p
    case Prompt => 0
    case RLocking => 4
    case RTesting => 3
    case RAsleep => 0
    case RWoken => 4
    case RWorking => 2
    case RUnlocking => 1
    case ELocking => 6
    case EWorking => 5
    case EUnlocking => 4
    case ESignalling => 3
  }

  function Left(s: State): nat {
    Total(Weight, s.threads) + ParentWeight(s.parent)
  }

  lemma WakeCosts(s: State, role: Role, w: Wakes)
    requires CanWake(s, role, w)
    ensures Left(Wake(s, w)) <= Left(s) + 4 && (!s.parent.RAsleep? ==> Left(Wake(s, w)) <= Left(s) + 2)
  {
    if w.One? {
      TotalUpdate(Weight, s.threads, w.thread, s.threads[w.thread].(phase := Woken));
    }
  }

  lemma ProceedingShortens(s: State, m: Move)
    requires Enabled(s, m) && Proceeds(m) && !SomeoneWorks(s)
    ensures Left(Next(s, m)) < Left(s)
  {
    match m
    case Go(t, w) =>
      var x := s.threads[t];
      assert !x.phase.Working?;
      var x' := x.(phase := NextPhase(s.size, x));
      TotalUpdate(Weight, s.threads, t, x');
      if x.phase.Signalling? {
        var moved := s.(threads := s.threads[t := x']);
        if w.One? {
          assert s.threads[w.thread].phase.Asleep? && moved.threads[w.thread] == s.threads[w.thread];
        }
        assert w != Nobody ==> CanWake(moved, Other(x.role), w);
        if w != Nobody {
          WakeCosts(moved, Other(x.role), w);
        }
      }
    case ParentGoes(w) =>
      if s.parent.ESignalling? {
        assert w != Nobody ==> CanWake(s.(parent := Prompt), Producer, w);
        if w != Nobody {
          WakeCosts(s.(parent := Prompt), Producer, w);
        }
      }
  }

  lemma RolesKept(s: State, m: Move, t: nat)
    requires Enabled(s, m) && t < |s.threads|
    ensures t < |Next(s, m).threads| && Next(s, m).threads[t].role == s.threads[t].role
  {
  }

  // While not dead, calm moves lead to a thread at work: by itself at a positive capacity, and
  // otherwise after an e command.
  lemma {:induction false} WorksAgain(s: State, producer: nat, consumer: nat) returns (s': State)
    requires Inv(s) && !Dead(s)
    requires producer < |s.threads| && s.threads[producer].role.Producer?
    requires consumer < |s.threads| && s.threads[consumer].role.Consumer?
    ensures Reaches(s, CalmStep, s') && SomeoneWorks(s')
    decreases Left(s)
  {
    if SomeoneWorks(s) {
      Stays(s, CalmStep);
      s' := s;
    } else if AllAsleep(s) {
      AllSleepAtZero(s, producer, consumer);
      s' := WorksAfterE(s, producer);
    } else {
      SomebodyProceeds(s);
      var m :| Proceeds(m) && Enabled(s, m);
      ProceedingShortens(s, m);
      AliveKept(s, m);
      RolesKept(s, m, producer);
      RolesKept(s, m, consumer);
      NextInv(s, m);
      assert CalmStep(s, Next(s, m));
      s' := WorksAgain(Next(s, m), producer, consumer);
      StepFirst(s, CalmStep, Next(s, m), s');
    }
  }

  // A whole e command while the mutex is free: one more slot, and its signal.
  lemma WholeE(s: State, w: Wakes) returns (s': State)
    requires s.parent.Prompt? && s.mutex == 1 && CanWake(s, Producer, w)
    ensures Reaches(s, CalmStep, s') && s' == Wake(s.(size := ExpandedSize(s.size)), w)
  {
    Stays(s, CalmStep);
    s' := GoesCalmly(s, s, E);
    s' := GoesCalmly(s, s', ParentGoes(Nobody));
    s' := GoesCalmly(s, s', ParentGoes(Nobody));
    s' := GoesCalmly(s, s', ParentGoes(Nobody));
    s' := GoesCalmly(s, s', ParentGoes(w));
  }

  lemma WorksAfterE(s: State, producer: nat) returns (s': State)
    requires Inv(s) && AllAsleep(s) && s.parent.Prompt? && s.size.maxLen == 0
    requires producer < |s.threads| && s.threads[producer].role.Producer?
    ensures Reaches(s, CalmStep, s') && SomeoneWorks(s')
  {
    TotalZero(HoldsMutex, s.threads);
    s' := WholeE(s, One(producer));
    s' := GoesCalmly(s, s', Go(producer, Nobody));
    s' := GoesCalmly(s, s', Go(producer, Nobody));
    assert s'.threads[producer].phase.Working?;
  }

  ghost predicate ProceedStep(s: State, s': State) {
    exists m {:trigger Enabled(s, m)} :: Enabled(s, m) && Proceeds(m) && s' == Next(s, m)
  }

  lemma ProceedStepShortens(s: State, s': State, t: nat)
    requires ProceedStep(s, s') && !SomeoneWorks(s) && t < |s.threads|
    ensures Left(s') < Left(s) && t < |s'.threads| && s'.threads[t].role == s.threads[t].role
  {
    var m :| Enabled(s, m) && Proceeds(m) && s' == Next(s, m);
    ProceedingShortens(s, m);
    RolesKept(s, m, t);
  }

  lemma {:induction false} LeftRunsOut(run: seq<State>, now: nat, later: nat, t: nat)
    requires now <= later < |run| && t < |run[now].threads|
    requires Linked(run[now..later + 1], ProceedStep)
    requires forall i :: now <= i < later ==> !SomeoneWorks(run[i])
    ensures later - now + Left(run[later]) <= Left(run[now])
    ensures t < |run[later].threads| && run[later].threads[t].role == run[now].threads[t].role
    decreases later
  {
    if now < later {
      var tail := run[now..later + 1];
      forall i | 0 < i < |run[now..later]| ensures ProceedStep(run[now..later][i - 1], run[now..later][i]) {
        assert ProceedStep(tail[i - 1], tail[i]);
      }
      LeftRunsOut(run, now, later - 1, t);
      assert ProceedStep(tail[later - now - 1], tail[later - now]);
      ProceedStepShortens(run[later - 1], run[later], t);
    }
  }

  // Whatever the schedule: from a state with a producer and a consumer, moves without a new command
  // or a spurious wakeup can go on, but not for Left many moves, without a thread getting to work
  // or the capacity getting to 0.
  lemma EveryScheduleWorks(run: seq<State>, now: nat, later: nat, producer: nat, consumer: nat)
    requires IsRun(run) && now <= later < |run| && Linked(run[now..later + 1], ProceedStep)
    requires producer < |run[now].threads| && run[now].threads[producer].role.Producer?
    requires consumer < |run[now].threads| && run[now].threads[consumer].role.Consumer?
    requires forall i :: now <= i <= later ==> !SomeoneWorks(run[i]) && run[i].size.maxLen > 0
    ensures later - now < Left(run[now])
    ensures exists m {:trigger Enabled(run[later], m)} :: Proceeds(m) && Enabled(run[later], m)
  {
    LeftRunsOut(run, now, later, producer);
    LeftRunsOut(run, now, later, consumer);
    AllSleepOnlyAtZero(run, later, producer, consumer);
    var m :| Proceeds(m) && Enabled(run[later], m);
    ProceedingShortens(run[later], m);
  }

  // The run up to state `now` has a continuation, by any moves, to a thread at work.
  ghost predicate CanWorkAgain(run: seq<State>, now: nat)
    requires now < |run|
  {
    exists run' {:trigger IsRun(run')} :: IsRun(run') && run[..now + 1] <= run' && SomeoneWorks(run'[|run'| - 1])
  }

  // With a producer and a consumer, the program has stopped for good exactly when the capacity is 0
  // and the parent waits in r.
  lemma StopsForGoodIff(run: seq<State>, now: nat, producer: nat, consumer: nat)
    requires IsRun(run) && now < |run|
    requires producer < |run[now].threads| && run[now].threads[producer].role.Producer?
    requires consumer < |run[now].threads| && run[now].threads[consumer].role.Consumer?
    ensures Dead(run[now]) <==> !CanWorkAgain(run, now)
  {
    var past := run[..now + 1];
    if Dead(run[now]) {
      forall run' | IsRun(run') && past <= run' ensures !SomeoneWorks(run'[|run'| - 1]) {
        assert run'[now] == past[now] == run[now];
        DeadForever(run', now, |run'| - 1);
      }
    } else {
      RunInv(run, now);
      assert Linked(past, Steps);
      var s' := WorksAgain(run[now], producer, consumer);
      var run' := RunOn(past, Steps, CalmStep, s');
      assert IsRun(run');
    }
  }

  lemma Goes(from: State, s: State, m: Move) returns (s': State)
    requires Reaches(from, Steps, s) && Enabled(s, m)
    ensures Reaches(from, Steps, s') && s' == Next(s, m)
  {
    s' := Next(s, m);
    assert Steps(s, s');
    StepLast(from, Steps, s, s');
  }

  // There can be MAX_THREADS of each role.
  lemma LimitReached() returns (run: seq<State>)
    ensures IsRun(run) && Count(run[|run| - 1].threads, Producer) == MAX_THREADS == Count(run[|run| - 1].threads, Consumer)
  {
    var from := State(Size(0, QUEUE_BASE_SIZE), 1, [], Prompt);
    Stays(from, Steps);
    var s := Hires(from, from, Producer);
    s := Hires(from, s, Consumer);
    run := RunOn([from], Steps, Steps, s);
  }

  lemma {:induction false} Hires(from: State, s: State, role: Role) returns (s': State)
    requires Reaches(from, Steps, s) && s.parent.Prompt? && Count(s.threads, role) <= MAX_THREADS
    ensures Reaches(from, Steps, s') && s'.parent.Prompt? && Count(s'.threads, role) == MAX_THREADS
    ensures forall other :: other != role ==> Count(s'.threads, other) == Count(s.threads, other)
    decreases MAX_THREADS - Count(s.threads, role)
  {
    s' := s;
    if Count(s.threads, role) < MAX_THREADS {
      forall r ensures Count(Next(s, Create(role)).threads, r) == Count(s.threads, r) + if r == role then 1 else 0 {
        CountStep(s, Create(role), r);
      }
      s' := Goes(from, s, Create(role));
      s' := Hires(from, s', role);
    }
  }

  // A whole r command on a queue that is not full, while no thread holds the mutex.
  lemma WholeR(from: State, s: State) returns (s': State)
    requires Reaches(from, Steps, s)
    requires s.parent.Prompt? && s.mutex == 1 && Count(s.threads, Consumer) > 0 && s.size.len < s.size.maxLen
    ensures Reaches(from, Steps, s') && s' == s.(size := s.size.(maxLen := s.size.maxLen - 1))
  {
    s' := Goes(from, s, R);
    s' := Goes(from, s', ParentGoes(Nobody));
    s' := Goes(from, s', ParentGoes(Nobody));
    s' := Goes(from, s', ParentGoes(Nobody));
    s' := Goes(from, s', ParentGoes(Nobody));
  }

  lemma {:induction false} ReducesToZero(from: State, s: State, n: nat) returns (s': State)
    requires Reaches(from, Steps, s)
    requires s.parent.Prompt? && s.mutex == 1 && Count(s.threads, Consumer) > 0 && s.size == Size(0, n)
    ensures Reaches(from, Steps, s') && s' == s.(size := Size(0, 0))
    decreases n
  {
    s' := s;
    if n > 0 {
      s' := WholeR(from, s);
      s' := ReducesToZero(from, s', n - 1);
    }
  }

  // The two threads find nothing to do at capacity 0.
  lemma BothSleep(from: State, s: State) returns (s': State)
    requires Reaches(from, Steps, s) && s.size == Size(0, 0) && s.mutex == 1
    requires s.threads == [Thread(Producer, Locking), Thread(Consumer, Locking)]
    ensures Reaches(from, Steps, s') && s' == s.(threads := [Thread(Producer, Asleep), Thread(Consumer, Asleep)])
  {
    s' := Goes(from, s, Go(0, Nobody));
    s' := Goes(from, s', Go(0, Nobody));
    s' := Goes(from, s', Go(1, Nobody));
    s' := Goes(from, s', Go(1, Nobody));
    assert s'.threads == [Thread(Producer, Asleep), Thread(Consumer, Asleep)];
  }

  // It is reached: eleven r commands, with one producer and one consumer that have not locked yet;
  // then everybody sleeps, the parent too, for good.
  lemma DeadReachable() returns (run: seq<State>)
    ensures IsRun(run) && Dead(run[|run| - 1])
    ensures run[|run| - 1].threads == [Thread(Producer, Asleep), Thread(Consumer, Asleep)] && run[|run| - 1].parent.RAsleep?
  {
    var from := State(Size(0, QUEUE_BASE_SIZE), 1, [], Prompt);
    Stays(from, Steps);
    var s := Goes(from, from, Create(Producer));
    CountStep(from, Create(Producer), Consumer);
    s := Goes(from, s, Create(Consumer));
    assert s.threads == [Thread(Producer, Locking), Thread(Consumer, Locking)];
    TotalAtLeast(OfRole(Consumer), s.threads, 1);
    s := ReducesToZero(from, s, QUEUE_BASE_SIZE);
    s := BothSleep(from, s);
    TotalAtLeast(OfRole(Consumer), s.threads, 1);
    s := Goes(from, s, R);
    s := Goes(from, s, ParentGoes(Nobody));
    s := Goes(from, s, ParentGoes(Nobody));
    run := RunOn([from], Steps, Steps, s);
  }
}

/** The threads of lab5/5.1 (main.c): producers and consumers on two semaphores and a mutex, while
    the parent's commands e and r change the capacity. No thread is being closed. */
module SemaphoreResize {
  import opened ResizableQueue
  import opened Totals
  import opened Runs

  // The least capacity queue_reduce leaves.
  const LEAST: nat := 1

  datatype Role = Producer | Consumer

  // A thread waits for its semaphore, has the permit and wants the mutex, has the mutex, has also
  // pushed or popped, and has released the mutex but not posted the other semaphore.
  datatype Phase = Waiting | Granted | Inside | Finished | Posting

  datatype Thread = Thread(role: Role, phase: Phase)

  // The parent: at the prompt, or in the command r or e.
  datatype Parent = Prompt
    | RWaiting | RGranted | RInside | RFinished
    | EStarted | EInside | EFinished | EPosting

  // len and max_len, free_space_sem, items_sem, queue_mutex (1 when free), the threads, the parent,
  // and, as history, the permits that an r without effect has kept.
  datatype State = State(size: Size, freeSpace: nat, items: nat, mutex: nat, threads: seq<Thread>, parent: Parent, lost: nat)

  datatype Move = Create(role: Role) | Go(thread: nat) | R | E | ParentGoes

  // MAX_PRODUCER_THREADS, MAX_CONSUMER_THREADS
  const MAX_THREADS: nat := 10

  function OfRole(role: Role): Thread -> nat {
    (t: Thread) => if t.role == role then 1 else 0
  }

  function Count(threads: seq<Thread>, role: Role): nat {
    Total(OfRole(role), threads)
  }

  predicate Enabled(s: State, m: Move) {
    match m
    case Create(role) => s.parent.Prompt? && Count(s.threads, role) < MAX_THREADS
    case Go(t) =>
      t < |s.threads| &&
      (match s.threads[t].phase
       case Waiting => (if s.threads[t].role.Producer? then s.freeSpace else s.items) > 0
       case Granted => s.mutex > 0
       case _ => true)
    case R => s.parent.Prompt? && Count(s.threads, Consumer) > 0
    case E => s.parent.Prompt?
    case ParentGoes =>
      match s.parent
      case Prompt => false
      case RWaiting => s.freeSpace > 0
      case RGranted => s.mutex > 0
      case EStarted => s.mutex > 0
      case _ => true
  }

  function NextPhase(p: Phase): Phase {
    match p
    case Waiting => Granted
    case Granted => Inside
    case Inside => Finished
    case Finished => Posting
    case Posting => Waiting
  }

  // What a thread's next move does to the queue, the semaphores and the mutex.
  function ThreadMoves(s: State, t: nat): State
    requires Enabled(s, Go(t))
  {
    var Thread(role, phase) := s.threads[t];
    match phase
    case Waiting => if role.Producer? then s.(freeSpace := s.freeSpace - 1) else s.(items := s.items - 1)
    case Granted => s.(mutex := s.mutex - 1)
    case Inside => s.(size := if role.Producer? then PushedSize(s.size) else PoppedSize(s.size))
    case Finished => s.(mutex := s.mutex + 1)
    case Posting => if role.Producer? then s.(items := s.items + 1) else s.(freeSpace := s.freeSpace + 1)
  }

  function ParentMoves(s: State): State
    requires Enabled(s, ParentGoes)
  {
    match s.parent
    case Prompt => s
    case RWaiting => s.(parent := RGranted, freeSpace := s.freeSpace - 1)
    case RGranted => s.(parent := RInside, mutex := s.mutex - 1)
    case RInside => s.(parent := RFinished, size := ReducedSize(s.size, LEAST),
                       lost := s.lost + if SizeShrinks(s.size, LEAST) then 0 else 1)
    case RFinished => s.(parent := Prompt, mutex := s.mutex + 1)
    case EStarted => s.(parent := EInside, mutex := s.mutex - 1)
    case EInside => s.(parent := EFinished, size := ExpandedSize(s.size))
    case EFinished => s.(parent := EPosting, mutex := s.mutex + 1)
    case EPosting => s.(parent := Prompt, freeSpace := s.freeSpace + 1)
  }

  function Next(s: State, m: Move): State
    requires Enabled(s, m)
  {
    match m
    case Create(role) => s.(threads := s.threads + [Thread(role, Waiting)])
    case Go(t) => ThreadMoves(s, t).(threads := s.threads[t := s.threads[t].(phase := NextPhase(s.threads[t].phase))])
    case R => s.(parent := RWaiting)
    case E => s.(parent := EStarted)
    case ParentGoes => ParentMoves(s)
  }

  // Producers that hold a permit for a free slot, and consumers that owe one.
  function SpaceHeld(t: Thread): nat {
    if t.role.Producer? && (t.phase.Granted? || t.phase.Inside?) then 1
    else if t.role.Consumer? && (t.phase.Finished? || t.phase.Posting?) then 1
    else 0
  }

  // Consumers that hold a permit for a message, and producers that owe one.
  function ItemHeld(t: Thread): nat {
    if t.role.Consumer? && (t.phase.Granted? || t.phase.Inside?) then 1
    else if t.role.Producer? && (t.phase.Finished? || t.phase.Posting?) then 1
    else 0
  }

  function HoldsMutex(t: Thread): nat {
    if t.phase.Inside? || t.phase.Finished? then 1 else 0
  }

  function ParentHoldsMutex(p: Parent): nat {
    if p.RInside? || p.RFinished? || p.EInside? || p.EFinished? then 1 else 0
  }

  // The parent holds a permit in the middle of r, and owes one in the middle of e.
  function ParentHeld(p: Parent): nat {
    if p.RGranted? || p.RInside? || p.EFinished? || p.EPosting? then 1 else 0
  }

  ghost predicate Inv(s: State) {
    && s.size.maxLen >= LEAST
    && s.freeSpace + s.size.len + Total(SpaceHeld, s.threads) + ParentHeld(s.parent) + s.lost == s.size.maxLen
    && s.items + Total(ItemHeld, s.threads) == s.size.len
    && s.mutex + Total(HoldsMutex, s.threads) + ParentHoldsMutex(s.parent) == 1
  }

  predicate Initial(s: State) {
    s == State(Size(0, QUEUE_BASE_SIZE), QUEUE_BASE_SIZE, 0, 1, [], Prompt, 0)
  }

  lemma TotalsMove(s: State, t: nat, x: Thread)
    requires t < |s.threads|
    ensures var ts, ts' := s.threads, s.threads[t := x];
      && Total(SpaceHeld, ts') + SpaceHeld(ts[t]) == Total(SpaceHeld, ts) + SpaceHeld(x)
      && Total(ItemHeld, ts') + ItemHeld(ts[t]) == Total(ItemHeld, ts) + ItemHeld(x)
      && Total(HoldsMutex, ts') + HoldsMutex(ts[t]) == Total(HoldsMutex, ts) + HoldsMutex(x)
  {
    TotalUpdate(SpaceHeld, s.threads, t, x);
    TotalUpdate(ItemHeld, s.threads, t, x);
    TotalUpdate(HoldsMutex, s.threads, t, x);
  }

  // A thread at the queue finds the slot or the message it waited for.
  lemma PermitMeansRoom(s: State, t: nat)
    requires Inv(s) && t < |s.threads| && s.threads[t].phase.Inside?
    ensures if s.threads[t].role.Producer? then s.size.len < s.size.maxLen else s.size.len > 0
  {
    TotalAtLeast(SpaceHeld, s.threads, t);
    TotalAtLeast(ItemHeld, s.threads, t);
  }

  lemma GoKeeps(s: State, t: nat)
    requires Inv(s) && Enabled(s, Go(t))
    ensures Inv(Next(s, Go(t)))
  {
    if s.threads[t].phase.Inside? {
      WorkKeeps(s, t);
    } else {
      TotalsMove(s, t, s.threads[t].(phase := NextPhase(s.threads[t].phase)));
    }
  }

  lemma WorkKeeps(s: State, t: nat)
    requires Inv(s) && Enabled(s, Go(t)) && s.threads[t].phase.Inside?
    ensures Inv(Next(s, Go(t)))
  {
    TotalsMove(s, t, s.threads[t].(phase := Finished));
    PermitMeansRoom(s, t);
  }

  lemma ParentKeeps(s: State)
    requires Inv(s) && Enabled(s, ParentGoes)
    ensures Inv(Next(s, ParentGoes))
  {
  }

  lemma NextInv(s: State, m: Move)
    requires Inv(s) && Enabled(s, m)
    ensures Inv(Next(s, m))
  {
    match m
    case Create(role) =>
      TotalAppend(SpaceHeld, s.threads, Thread(role, Waiting));
      TotalAppend(ItemHeld, s.threads, Thread(role, Waiting));
      TotalAppend(HoldsMutex, s.threads, Thread(role, Waiting));
    case Go(t) => GoKeeps(s, t);
    case ParentGoes => ParentKeeps(s);
    case _ =>
  }

  ghost predicate Steps(s: State, s': State) {
    exists m {:trigger Enabled(s, m)} :: Enabled(s, m) && s' == Next(s, m)
  }

  ghost predicate IsRun(run: seq<State>) {
    && |run| > 0 && Initial(run[0])
    && forall i :: 0 < i < |run| ==> Steps(run[i - 1], run[i])
  }

  lemma RunInv(run: seq<State>, i: nat)
    requires IsRun(run) && i < |run|
    ensures Inv(run[i])
  {
    forall s, s' | Inv(s) && Steps(s, s') ensures Inv(s') {
      var m :| Enabled(s, m) && s' == Next(s, m);
      NextInv(s, m);
    }
    Kept(run, Steps, Inv, 0, i);
  }

  // Permits are conserved through pushes, pops and resizes: those for free slots add up to
  // max_len, but for the ones that r has lost; those for messages add up to len.
  lemma PermitsConserved(run: seq<State>, now: nat)
    requires IsRun(run) && now < |run|
    ensures var s := run[now];
      && s.freeSpace + s.size.len + Total(SpaceHeld, s.threads) + ParentHeld(s.parent) + s.lost == s.size.maxLen
      && s.items + Total(ItemHeld, s.threads) == s.size.len
  {
    RunInv(run, now);
  }

  // push never finds the queue full, pop never finds it empty, and reduce never finds it full, so
  // that it gives up only at the least capacity.
  lemma GuardsAreDead(run: seq<State>, now: nat)
    requires IsRun(run) && now < |run|
    ensures var s := run[now];
      && (forall t :: 0 <= t < |s.threads| && s.threads[t] == Thread(Producer, Inside) ==> s.size.len < s.size.maxLen)
      && (forall t :: 0 <= t < |s.threads| && s.threads[t] == Thread(Consumer, Inside) ==> s.size.len > 0)
      && (s.parent.RInside? ==> s.size.len < s.size.maxLen && (SizeShrinks(s.size, LEAST) <==> s.size.maxLen > LEAST))
  {
    RunInv(run, now);
    var s := run[now];
    forall t | 0 <= t < |s.threads|
      ensures s.threads[t] == Thread(Producer, Inside) ==> s.size.len < s.size.maxLen
      ensures s.threads[t] == Thread(Consumer, Inside) ==> s.size.len > 0
    {
      if s.threads[t].phase.Inside? {
        PermitMeansRoom(s, t);
      }
    }
  }

  predicate SomeThreadCanMove(s: State) {
    exists t: nat :: t < |s.threads| && Enabled(s, Go(t))
  }

  lemma AllWaiting(s: State)
    requires Inv(s) && ParentHoldsMutex(s.parent) == 0 && !SomeThreadCanMove(s)
    ensures forall t :: 0 <= t < |s.threads| ==> s.threads[t].phase.Waiting?
    ensures Total(SpaceHeld, s.threads) == Total(ItemHeld, s.threads) == 0
  {
    forall t | 0 <= t < |s.threads| ensures s.threads[t].phase.Waiting? || s.threads[t].phase.Granted? {
      assert !Enabled(s, Go(t));
    }
    TotalZero(HoldsMutex, s.threads);
    forall t | 0 <= t < |s.threads| ensures s.threads[t].phase.Waiting? {
      assert !Enabled(s, Go(t));
    }
    TotalZero(SpaceHeld, s.threads);
    TotalZero(ItemHeld, s.threads);
  }

  // With a producer and a consumer, and the parent at the prompt or waiting for a slot, the threads
  // are stuck exactly if every permit of the queue has been lost.
  lemma StuckIff(run: seq<State>, now: nat, producer: nat, consumer: nat)
    requires IsRun(run) && now < |run| && (run[now].parent.Prompt? || run[now].parent.RWaiting?)
    requires producer < |run[now].threads| && run[now].threads[producer].role.Producer?
    requires consumer < |run[now].threads| && run[now].threads[consumer].role.Consumer?
    ensures !SomeThreadCanMove(run[now]) <==> run[now].lost == run[now].size.maxLen
  {
    RunInv(run, now);
    var s := run[now];
    if !SomeThreadCanMove(s) {
      AllWaiting(s);
      assert !Enabled(s, Go(producer)) && !Enabled(s, Go(consumer));
    } else if s.lost == s.size.maxLen {
      var t: nat :| t < |s.threads| && Enabled(s, Go(t));
      TotalAtLeast(SpaceHeld, s.threads, t);
      TotalAtLeast(ItemHeld, s.threads, t);
    }
  }

  // An r command finds the capacity at its least.
  predicate Refuses(s: State, s': State) {
    s.parent.RInside? && s'.parent.RFinished? && s.size.maxLen == LEAST
  }

  // Each of them loses one permit, and nothing else does.
  lemma {:induction false} LostCountsRefusals(run: seq<State>, now: nat)
    requires IsRun(run) && now < |run|
    ensures run[now].lost == Times(run, Refuses, now)
  {
    if now > 0 {
      LostCountsRefusals(run, now - 1);
      LossStep(run, now - 1);
    }
  }

  lemma LossStep(run: seq<State>, now: nat)
    requires IsRun(run) && now + 1 < |run|
    ensures run[now + 1].lost == run[now].lost + if Refuses(run[now], run[now + 1]) then 1 else 0
  {
    RunInv(run, now);
    GuardsAreDead(run, now);
    assert Steps(run[now], run[now + 1]);
    var m :| Enabled(run[now], m) && run[now + 1] == Next(run[now], m);
  }

  // The commands e and r as the parent begins them.
  predicate BeginsE(s: State, s': State) {
    s.parent.Prompt? && s'.parent.EStarted?
  }

  predicate BeginsR(s: State, s': State) {
    s.parent.Prompt? && s'.parent.RWaiting?
  }

  // The parent has begun r and not reduced yet.
  function OwesReduce(p: Parent): nat {
    if p.RWaiting? || p.RGranted? || p.RInside? then 1 else 0
  }

  // The capacity when the command under way, if any, has resized the queue.
  function Committed(s: State): int {
    s.size.maxLen - OwesReduce(s.parent) + if s.parent.EStarted? || s.parent.EInside? then 1 else 0
  }

  // A thread of this role does its push or pop.
  predicate Works(role: Role, s: State, s': State) {
    exists t :: 0 <= t < |s.threads| && t < |s'.threads| && s.threads[t] == Thread(role, Inside) && s'.threads[t] == Thread(role, Finished)
  }

  ghost function WorksAs(role: Role): (State, State) -> bool {
    (s, s') => Works(role, s, s')
  }

  // The capacity is what the commands have made it, each e adding one and each r taking one off
  // but for those that found it at 1; and what is in the queue is what was pushed and not popped.
  lemma {:induction false} CommandsCount(run: seq<State>, now: nat)
    requires IsRun(run) && now < |run|
    ensures Committed(run[now]) == QUEUE_BASE_SIZE + Times(run, BeginsE, now) - Times(run, BeginsR, now) + Times(run, Refuses, now)
    ensures Times(run, Refuses, now) + OwesReduce(run[now].parent) <= Times(run, BeginsR, now)
    ensures run[now].size.len + Times(run, WorksAs(Consumer), now) == Times(run, WorksAs(Producer), now)
  {
    if now > 0 {
      CommandsCount(run, now - 1);
      RunInv(run, now - 1);
      GuardsAreDead(run, now - 1);
      assert Steps(run[now - 1], run[now]);
      CapacityStep(run[now - 1], run[now]);
      LengthStep(run[now - 1], run[now]);
    }
  }

  lemma CapacityStep(s: State, s': State)
    requires Steps(s, s') && (s.parent.RInside? ==> s.size.len < s.size.maxLen)
    ensures Committed(s') == Committed(s) + (if BeginsE(s, s') then 1 else 0) - (if BeginsR(s, s') then 1 else 0)
                           + if Refuses(s, s') then 1 else 0
    ensures (if Refuses(s, s') then 1 else 0) + OwesReduce(s'.parent) <= OwesReduce(s.parent) + if BeginsR(s, s') then 1 else 0
  {
    var m :| Enabled(s, m) && s' == Next(s, m);
    if m.Go? {
      ThreadCommitsNothing(s, m.thread);
    } else if m.ParentGoes? {
      ParentCommitsNothing(s);
    }
  }

  lemma ThreadCommitsNothing(s: State, t: nat)
    requires Enabled(s, Go(t))
    ensures Next(s, Go(t)).parent == s.parent && Committed(Next(s, Go(t))) == Committed(s)
  {
  }

  lemma ParentCommitsNothing(s: State)
    requires Enabled(s, ParentGoes) && (s.parent.RInside? ==> s.size.len < s.size.maxLen)
    ensures var s' := Next(s, ParentGoes); var refused := if Refuses(s, s') then 1 else 0;
      && Committed(s') == Committed(s) + refused && !BeginsE(s, s') && !BeginsR(s, s')
      && refused + OwesReduce(s'.parent) <= OwesReduce(s.parent)
  {
  }

  lemma LengthStep(s: State, s': State)
    requires Inv(s) && Steps(s, s')
    ensures s'.size.len == s.size.len + (if Works(Producer, s, s') then 1 else 0) - if Works(Consumer, s, s') then 1 else 0
  {
    var m :| Enabled(s, m) && s' == Next(s, m);
    if m.Go? && s.threads[m.thread].phase.Inside? {
      PermitMeansRoom(s, m.thread);
      WorkCounts(s, m.thread);
    } else {
      OthersDoNoWork(s, m, Producer);
      OthersDoNoWork(s, m, Consumer);
    }
  }

  lemma OthersDoNoWork(s: State, m: Move, role: Role)
    requires Enabled(s, m) && (m.Go? ==> !s.threads[m.thread].phase.Inside?)
    ensures Next(s, m).size.len == s.size.len && !Works(role, s, Next(s, m))
  {
  }

  lemma WorkCounts(s: State, t: nat)
    requires Enabled(s, Go(t)) && s.threads[t].phase.Inside?
    ensures forall role :: Works(role, s, Next(s, Go(t))) <==> role == s.threads[t].role
  {
    assert Works(s.threads[t].role, s, Next(s, Go(t)));
  }

  // Only a create changes how many threads there are.
  lemma CountStep(s: State, m: Move, role: Role)
    requires Enabled(s, m)
    ensures Count(Next(s, m).threads, role) == Count(s.threads, role) + if m == Create(role) then 1 else 0
  {
    match m
    case Create(r) => TotalAppend(OfRole(role), s.threads, Thread(r, Waiting));
    case Go(t) => TotalUpdate(OfRole(role), s.threads, t, Next(s, m).threads[t]);
    case _ =>
  }

  // Whatever the threads are doing, a command is taken at the prompt: e always, r if there is a
  // consumer, and a new thread if its role has room.
  lemma CommandsTaken(s: State, role: Role)
    requires s.parent.Prompt?
    ensures exists s' :: Steps(s, s') && BeginsE(s, s')
    ensures (exists s' :: Steps(s, s') && BeginsR(s, s')) <==> Count(s.threads, Consumer) > 0
    ensures (exists s' :: Steps(s, s') && Count(s'.threads, role) > Count(s.threads, role)) <==> Count(s.threads, role) < MAX_THREADS
  {
    assert Enabled(s, E) && Steps(s, Next(s, E)) && BeginsE(s, Next(s, E));
    if Count(s.threads, Consumer) > 0 {
      assert Enabled(s, R) && Steps(s, Next(s, R)) && BeginsR(s, Next(s, R));
    }
    if Count(s.threads, role) < MAX_THREADS {
      CountStep(s, Create(role), role);
      assert Enabled(s, Create(role)) && Steps(s, Next(s, Create(role)));
    }
    forall s' | Steps(s, s')
      ensures BeginsR(s, s') ==> Count(s.threads, Consumer) > 0
      ensures Count(s'.threads, role) > Count(s.threads, role) ==> Count(s.threads, role) < MAX_THREADS
    {
      var m :| Enabled(s, m) && s' == Next(s, m);
      CountStep(s, m, role);
    }
  }

  // No role ever has more than MAX_THREADS threads.
  lemma {:induction false} ThreadsLimited(run: seq<State>, now: nat, role: Role)
    requires IsRun(run) && now < |run|
    ensures Count(run[now].threads, role) <= MAX_THREADS
  {
    if now > 0 {
      ThreadsLimited(run, now - 1, role);
      assert Steps(run[now - 1], run[now]);
      var m :| Enabled(run[now - 1], m) && run[now] == Next(run[now - 1], m);
      CountStep(run[now - 1], m, role);
    }
  }

  lemma NoConsumerBefore(s: State, s': State)
    requires Steps(s, s') && Count(s'.threads, Consumer) == 0
    ensures Count(s.threads, Consumer) == 0 && !BeginsR(s, s')
  {
    var m :| Enabled(s, m) && s' == Next(s, m);
    CountStep(s, m, Consumer);
  }

  lemma {:induction false} NoRWithoutConsumer(run: seq<State>, now: nat)
    requires IsRun(run) && now < |run| && Count(run[now].threads, Consumer) == 0
    ensures Times(run, BeginsR, now) == 0
  {
    if now > 0 {
      assert Steps(run[now - 1], run[now]);
      NoConsumerBefore(run[now - 1], run[now]);
      NoRWithoutConsumer(run, now - 1);
    }
  }

  // Before there is a consumer no r has an effect.
  lemma NoReduceWithoutConsumer(run: seq<State>, now: nat)
    requires IsRun(run) && now < |run| && Count(run[now].threads, Consumer) == 0
    ensures Times(run, BeginsR, now) == 0 == Times(run, Refuses, now) == run[now].lost
    ensures Committed(run[now]) == QUEUE_BASE_SIZE + Times(run, BeginsE, now)
  {
    NoRWithoutConsumer(run, now);
    CommandsCount(run, now);
    LostCountsRefusals(run, now);
  }

  // Nothing is lost before the first r at capacity 1.
  lemma LossNeedsLeast(run: seq<State>, now: nat)
    requires IsRun(run) && now < |run|
    requires forall i :: 0 <= i < now && run[i].parent.RInside? ==> run[i].size.maxLen > LEAST
    ensures run[now].lost == 0
    decreases now
  {
    if now > 0 {
      LossNeedsLeast(run, now - 1);
      LossStep(run, now - 1);
    }
  }

  lemma Goes(from: State, s: State, m: Move) returns (s': State)
    requires Reaches(from, Steps, s) && Enabled(s, m)
    ensures Reaches(from, Steps, s') && s' == Next(s, m)
  {
    s' := Next(s, m);
    assert Steps(s, s');
    StepLast(from, Steps, s, s');
  }

  // And there can be as many of each.
  lemma LimitReached() returns (run: seq<State>)
    ensures IsRun(run) && Count(run[|run| - 1].threads, Producer) == MAX_THREADS == Count(run[|run| - 1].threads, Consumer)
  {
    var from := State(Size(0, QUEUE_BASE_SIZE), QUEUE_BASE_SIZE, 0, 1, [], Prompt, 0);
    Stays(from, Steps);
    var s := Hires(from, from, Producer);
    s := Hires(from, s, Consumer);
    run := RunOn([from], Steps, Steps, s);
  }

  lemma {:induction false} Hires(from: State, s: State, role: Role) returns (s': State)
    requires Reaches(from, Steps, s) && s.parent.Prompt? && Count(s.threads, role) <= MAX_THREADS
    ensures Reaches(from, Steps, s') && s'.parent.Prompt? && Count(s'.threads, role) == MAX_THREADS
    ensures forall other :: other != role ==> Count(s'.threads, other) == Count(s.threads, other)
    decreases MAX_THREADS - Count(s.threads, role)
  {
    s' := s;
    if Count(s.threads, role) < MAX_THREADS {
      forall r ensures Count(Next(s, Create(role)).threads, r) == Count(s.threads, r) + if r == role then 1 else 0 {
        CountStep(s, Create(role), r);
      }
      s' := Goes(from, s, Create(role));
      s' := Hires(from, s', role);
    }
  }

  // n moves of thread t and of nobody else lead from s to s'.
  predicate Alone(s: State, t: nat, n: nat, s': State)
    decreases n
  {
    if n == 0 then s' == s else Enabled(s, Go(t)) && Alone(Next(s, Go(t)), t, n - 1, s')
  }

  function MovesLeft(p: Phase): nat {
    match p
    case Waiting => 5
    case Granted => 4
    case Inside => 3
    case Finished => 2
    case Posting => 1
  }

  // What is left of its round of a thread that needs to wait for nothing.
  lemma {:induction false} RestAlone(s: State, t: nat) returns (s': State)
    requires t < |s.threads| && s.mutex == 1 - HoldsMutex(s.threads[t])
    requires s.threads[t].phase.Waiting? ==> (if s.threads[t].role.Producer? then s.freeSpace else s.items) > 0
    ensures Alone(s, t, MovesLeft(s.threads[t].phase), s')
    ensures s'.threads == s.threads[t := Thread(s.threads[t].role, Waiting)] && s'.mutex == 1
    ensures s'.parent == s.parent && s'.lost == s.lost
    ensures var Thread(role, phase) := s.threads[t];
      && s'.size == (if phase.Finished? || phase.Posting? then s.size else if role.Producer? then PushedSize(s.size) else PoppedSize(s.size))
      && s'.freeSpace == (if role.Consumer? then s.freeSpace + 1 else if phase.Waiting? then s.freeSpace - 1 else s.freeSpace)
      && s'.items == (if role.Producer? then s.items + 1 else if phase.Waiting? then s.items - 1 else s.items)
    decreases MovesLeft(s.threads[t].phase)
  {
    s' := Next(s, Go(t));
    if !s.threads[t].phase.Posting? {
      s' := RestAlone(s', t);
    }
  }

  // A thread left alone, if it has its permit and the mutex is free: its round moves one permit
  // from one semaphore to the other and pushes or pops one message.
  lemma RoundAlone(s: State, t: nat) returns (s': State)
    requires Inv(s) && s.mutex == 1 && t < |s.threads| && s.threads[t].phase.Waiting?
    requires (if s.threads[t].role.Producer? then s.freeSpace else s.items) > 0
    ensures Alone(s, t, 5, s')
    ensures s' == if s.threads[t].role.Producer?
                  then s.(size := s.size.(len := s.size.len + 1), freeSpace := s.freeSpace - 1, items := s.items + 1)
                  else s.(size := s.size.(len := s.size.len - 1), freeSpace := s.freeSpace + 1, items := s.items - 1)
  {
    s' := RestAlone(s, t);
    assert s'.threads == s.threads;
  }

  // A whole r command while the threads rest.
  lemma WholeR(from: State, s: State) returns (s': State)
    requires Reaches(from, Steps, s) && s.parent.Prompt? && s.freeSpace > 0 && s.mutex == 1 && Count(s.threads, Consumer) > 0
    ensures Reaches(from, Steps, s')
    ensures s' == s.(size := ReducedSize(s.size, LEAST), freeSpace := s.freeSpace - 1,
                     lost := s.lost + if SizeShrinks(s.size, LEAST) then 0 else 1)
  {
    s' := Goes(from, s, R);
    s' := Goes(from, s', ParentGoes);
    s' := Goes(from, s', ParentGoes);
    s' := Goes(from, s', ParentGoes);
    s' := Goes(from, s', ParentGoes);
  }

  // Enough r commands end with the last permit lost.
  lemma {:induction false} LosesAll(from: State, s: State, n: nat) returns (s': State)
    requires Reaches(from, Steps, s) && n >= 1
    requires s.parent.Prompt? && s.freeSpace == n && s.mutex == 1 && s.size == Size(0, n) && s.lost == 0 && Count(s.threads, Consumer) > 0
    ensures Reaches(from, Steps, s')
    ensures s'.threads == s.threads && s'.lost == 1 == s'.size.maxLen && s'.parent.Prompt?
    decreases n
  {
    s' := WholeR(from, s);
    if n > 1 {
      s' := LosesAll(from, s', n - 1);
    }
  }

  // Every permit lost, and the parent waiting for one in r.
  predicate Dead(s: State) {
    s.lost == s.size.maxLen && s.parent.RWaiting?
  }

  predicate SomeoneInside(s: State) {
    exists t :: 0 <= t < |s.threads| && s.threads[t].phase.Inside?
  }

  ghost predicate Halted(s: State) {
    !SomeoneInside(s) && forall m :: !Enabled(s, m)
  }

  // Then nothing moves any more, the parent included.
  lemma DeadEnd(s: State)
    requires Inv(s) && Dead(s)
    ensures Halted(s)
  {
    forall t | 0 <= t < |s.threads| ensures s.threads[t].phase.Waiting? {
      TotalAtLeast(SpaceHeld, s.threads, t);
      TotalAtLeast(ItemHeld, s.threads, t);
    }
  }

  // Moves with no r command and no new thread.
  predicate Calm(m: Move) {
    m.Go? || m.ParentGoes? || m.E?
  }

  ghost predicate CalmStep(s: State, s': State) {
    exists m {:trigger Enabled(s, m)} :: Enabled(s, m) && Calm(m) && s' == Next(s, m)
  }

  lemma GoesCalmly(from: State, s: State, m: Move) returns (s': State)
    requires Reaches(from, CalmStep, s) && Enabled(s, m) && Calm(m)
    ensures Reaches(from, CalmStep, s') && s' == Next(s, m)
  {
    s' := Next(s, m);
    assert CalmStep(s, s');
    StepLast(from, CalmStep, s, s');
  }

  // Moves a thread has left before it waits, and the parent before it is at the prompt.
  function Weight(t: Thread): nat {
    if t.phase.Finished? then 2 else if t.phase.Posting? then 1 else 0
  }

  function ParentWeight(p: Parent): nat {
    match p
    case Prompt => 0
    case RWaiting => 0
    case RGranted => 3
    case RInside => 2
    case RFinished => 1
    case EStarted => 4
    case EInside => 3
    case EFinished => 2
    case EPosting => 1
  }

  function Left(s: State): nat {
    Total(Weight, s.threads) + ParentWeight(s.parent)
  }

  // The next move towards a thread at the queue: of whoever has the mutex, then of a thread that
  // owes a post, then of the parent.
  predicate Drains(s: State, m: Move) {
    match m
    case Go(t) => t < |s.threads| && (s.threads[t].phase.Finished? || s.threads[t].phase.Posting?)
    case ParentGoes => !s.parent.Prompt? && !s.parent.RWaiting?
    case _ => false
  }

  lemma DrainShortens(s: State, m: Move)
    requires Enabled(s, m) && Drains(s, m) && !Dead(s)
    ensures Left(Next(s, m)) < Left(s) && !Dead(Next(s, m))
  {
    if m.Go? {
      TotalUpdate(Weight, s.threads, m.thread, s.threads[m.thread].(phase := NextPhase(s.threads[m.thread].phase)));
    }
  }

  lemma SameRoles(s: State, m: Move, t: nat)
    requires Enabled(s, m) && t < |s.threads|
    ensures t < |Next(s, m).threads| && Next(s, m).threads[t].role == s.threads[t].role
  {
  }

  // Either somebody is at the queue, or a draining move is enabled, or all threads wait or want
  // the free mutex and the parent is at the prompt or waits.
  lemma DrainedOrNot(s: State) returns (m: Move)
    requires Inv(s)
    ensures SomeoneInside(s) || (Enabled(s, m) && Drains(s, m)) || Drained(s)
  {
    m := ParentGoes;
    if !SomeoneInside(s) && ParentHoldsMutex(s.parent) == 0 {
      if t :| 0 <= t < |s.threads| && (s.threads[t].phase.Finished? || s.threads[t].phase.Posting?) {
        m := Go(t);
      } else {
        TotalZero(HoldsMutex, s.threads);
      }
    }
  }

  predicate Drained(s: State) {
    && s.mutex == 1 && (s.parent.Prompt? || s.parent.RWaiting?)
    && forall t :: 0 <= t < |s.threads| ==> s.threads[t].phase.Waiting? || s.threads[t].phase.Granted?
  }

  // While not dead, calm moves lead to a thread at the queue.
  lemma {:induction false} WorksAgain(s: State, producer: nat, consumer: nat) returns (s': State)
    requires Inv(s) && !Dead(s)
    requires producer < |s.threads| && s.threads[producer].role.Producer?
    requires consumer < |s.threads| && s.threads[consumer].role.Consumer?
    ensures Reaches(s, CalmStep, s') && SomeoneInside(s')
    decreases Left(s)
  {
    var m := DrainedOrNot(s);
    Stays(s, CalmStep);
    if SomeoneInside(s) {
      s' := s;
    } else if Drained(s) {
      s' := WorksWhenDrained(s, producer, consumer);
    } else {
      DrainShortens(s, m);
      SameRoles(s, m, producer);
      SameRoles(s, m, consumer);
      NextInv(s, m);
      assert CalmStep(s, Next(s, m));
      s' := WorksAgain(Next(s, m), producer, consumer);
      StepFirst(s, CalmStep, Next(s, m), s');
    }
  }

  lemma WorksWhenDrained(s: State, producer: nat, consumer: nat) returns (s': State)
    requires Inv(s) && Drained(s) && !Dead(s)
    requires producer < |s.threads| && s.threads[producer].role.Producer?
    requires consumer < |s.threads| && s.threads[consumer].role.Consumer?
    ensures Reaches(s, CalmStep, s') && SomeoneInside(s')
  {
    Stays(s, CalmStep);
    if t :| 0 <= t < |s.threads| && s.threads[t].phase.Granted? {
      s' := GoesCalmly(s, s, Go(t));
      assert s'.threads[t].phase.Inside?;
    } else if s.freeSpace > 0 {
      s' := GoesInside(s, s, producer);
    } else if s.items > 0 {
      s' := GoesInside(s, s, consumer);
    } else {
      TotalZero(SpaceHeld, s.threads);
      TotalZero(ItemHeld, s.threads);
      s' := WorksAfterE(s, producer);
    }
  }

  // A whole e command while the threads rest.
  lemma WholeE(s: State) returns (s': State)
    requires s.parent.Prompt? && s.mutex == 1
    ensures Reaches(s, CalmStep, s') && s' == s.(size := ExpandedSize(s.size), freeSpace := s.freeSpace + 1)
  {
    Stays(s, CalmStep);
    s' := GoesCalmly(s, s, E);
    s' := GoesCalmly(s, s', ParentGoes);
    s' := GoesCalmly(s, s', ParentGoes);
    s' := GoesCalmly(s, s', ParentGoes);
    s' := GoesCalmly(s, s', ParentGoes);
  }

  // It makes room for a producer.
  lemma WorksAfterE(s: State, producer: nat) returns (s': State)
    requires s.parent.Prompt? && s.mutex == 1 && producer < |s.threads| && s.threads[producer] == Thread(Producer, Waiting)
    ensures Reaches(s, CalmStep, s') && SomeoneInside(s')
  {
    s' := WholeE(s);
    s' := GoesInside(s, s', producer);
  }

  // A waiting thread that finds its permit and the mutex.
  lemma GoesInside(from: State, s: State, t: nat) returns (s': State)
    requires Reaches(from, CalmStep, s) && t < |s.threads| && s.threads[t].phase.Waiting? && s.mutex == 1
    requires (if s.threads[t].role.Producer? then s.freeSpace else s.items) > 0
    ensures Reaches(from, CalmStep, s') && SomeoneInside(s')
  {
    s' := GoesCalmly(from, s, Go(t));
    s' := GoesCalmly(from, s', Go(t));
    assert s'.threads[t].phase.Inside?;
  }

  // The run up to state `now` has a continuation, by any moves, to a thread at the queue.
  ghost predicate CanWorkAgain(run: seq<State>, now: nat)
    requires now < |run|
  {
    exists run' {:trigger IsRun(run')} :: IsRun(run') && run[..now + 1] <= run' && SomeoneInside(run'[|run'| - 1])
  }

  // With a producer and a consumer, the program has stopped for good exactly when every permit is
  // lost and the parent waits in r.
  lemma StopsForGoodIff(run: seq<State>, now: nat, producer: nat, consumer: nat)
    requires IsRun(run) && now < |run|
    requires producer < |run[now].threads| && run[now].threads[producer].role.Producer?
    requires consumer < |run[now].threads| && run[now].threads[consumer].role.Consumer?
    ensures Dead(run[now]) <==> !CanWorkAgain(run, now)
  {
    var past := run[..now + 1];
    if Dead(run[now]) {
      RunInv(run, now);
      DeadEnd(run[now]);
      forall run' | IsRun(run') && past <= run' ensures !SomeoneInside(run'[|run'| - 1]) {
        assert run'[now] == past[now] == run[now];
        Kept(run', Steps, Halted, now, |run'| - 1);
      }
    } else {
      RunInv(run, now);
      assert Linked(past, Steps);
      var s' := WorksAgain(run[now], producer, consumer);
      var run' := RunOn(past, Steps, CalmStep, s');
      assert IsRun(run');
    }
  }

  // It is reached, by one more r.
  lemma DeadReachable() returns (run: seq<State>)
    ensures IsRun(run) && Dead(run[|run| - 1])
    ensures run[|run| - 1].threads == [Thread(Producer, Waiting), Thread(Consumer, Waiting)]
  {
    run := StuckReachable();
    var s := run[|run| - 1];
    StuckIff(run, |run| - 1, 0, 1);
    TotalAtLeast(OfRole(Consumer), s.threads, 1);
    Stays(s, Steps);
    s := Goes(s, s, R);
    run := RunOn(run, Steps, Steps, s);
  }

  lemma StuckReachable() returns (run: seq<State>)
    ensures IsRun(run)
    ensures var s := run[|run| - 1];
      s.threads == [Thread(Producer, Waiting), Thread(Consumer, Waiting)] && s.parent.Prompt? && !SomeThreadCanMove(s)
  {
    var from := State(Size(0, QUEUE_BASE_SIZE), QUEUE_BASE_SIZE, 0, 1, [], Prompt, 0);
    Stays(from, Steps);
    var s := Goes(from, from, Create(Producer));
    CountStep(from, Create(Producer), Consumer);
    s := Goes(from, s, Create(Consumer));
    assert s.threads == [Thread(Producer, Waiting), Thread(Consumer, Waiting)];
    TotalAtLeast(OfRole(Consumer), s.threads, 1);
    s := LosesAll(from, s, QUEUE_BASE_SIZE);
    run := RunOn([from], Steps, Steps, s);
    StuckIff(run, |run| - 1, 0, 1);
  }
}

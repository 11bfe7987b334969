/** One turn of the loops of lab4 (main.c): what a process does from its loop head to the next. */
module BufferRounds {
  import opened Messages
  import opened RingBuffer
  import opened BoundedBuffer
  import opened Totals
  import opened Runs

  // A consumer that has dequeued a message and has not compared its hash yet.
  predicate Checking(p: Process) {
    && p.role.Consumer? && p.slot.At?
    && (p.phase.Leaving? || p.phase.Signalling? || p.phase.CheckKind? || p.phase.CheckSize? || p.phase.CheckByte?)
  }

  lemma CheckingStep(s: State, s': State, t: nat)
    requires Steps(s, s') && t < |s.processes| && Checking(s.processes[t])
    ensures t < |s'.processes| && s'.processes[t].item == s.processes[t].item && s'.processes[t].slot == s.processes[t].slot
    ensures Checking(s'.processes[t]) || s'.processes[t].phase.CheckHash?
  {
    var m :| Enabled(s, m) && s' == Next(s, m);
    if m.By? && m.process == t {
      OwnCheck(s, t, m.event);
    }
  }

  lemma OwnCheck(s: State, t: nat, ev: Event)
    requires Enabled(s, By(t, ev)) && Checking(s.processes[t])
    ensures var p, p' := s.processes[t], NextProcess(s, t, ev);
      p'.item == p.item && p'.slot == p.slot && (Checking(p') || p'.phase.CheckHash?)
  {
  }

  // No message goes unchecked: a consumer that has dequeued one compares its hash before it is back
  // at its loop head, or anywhere else.
  lemma {:induction false} EveryMessageChecked(run: seq<State>, now: nat, later: nat, t: nat) returns (mid: nat)
    requires IsRun(run) && now <= later < |run| && t < |run[now].processes| && Checking(run[now].processes[t])
    requires t < |run[later].processes| && !Checking(run[later].processes[t])
    ensures now < mid <= later && t < |run[mid].processes|
    ensures run[mid].processes[t].phase.CheckHash?
    ensures run[mid].processes[t].item == run[now].processes[t].item && run[mid].processes[t].slot == run[now].processes[t].slot
    decreases later - now
  {
    assert Steps(run[now], run[now + 1]);
    CheckingStep(run[now], run[now + 1], t);
    mid := now + 1;
    if !run[mid].processes[t].phase.CheckHash? {
      mid := EveryMessageChecked(run, now + 1, later, t);
    }
  }

  // A dequeue, which no consumer leaves without a message, is followed by the check.
  lemma DequeueIsChecked(run: seq<State>, now: nat, later: nat, t: nat) returns (mid: nat)
    requires IsRun(run) && now <= later < |run| && t < |run[now].processes| && t < |run[later].processes|
    requires run[now].processes[t].role.Consumer? && (run[now].processes[t].phase.Leaving? || run[now].processes[t].phase.Signalling?)
    requires run[later].processes[t].phase.Head? || run[later].processes[t].phase.Ended?
    ensures now < mid <= later && t < |run[mid].processes|
    ensures run[mid].processes[t].phase.CheckHash? && run[mid].processes[t].item == run[now].processes[t].item
  {
    RunInv(run, now);
    assert ProcessInv(run[now], run[now].processes[t]);
    mid := EveryMessageChecked(run, now, later, t);
  }

  // The termination flag is looked at between two rounds only: a process can end with the next step
  // exactly at its loop head, where it holds nothing.
  lemma EndsAtHeadOnly(s: State, t: nat)
    requires t < |s.processes| && !s.processes[t].phase.Ended?
    ensures (exists s' :: Steps(s, s') && t < |s'.processes| && s'.processes[t].phase.Ended?) <==> s.processes[t].phase.Head?
    ensures s.processes[t].phase.Head? ==> InFlight(s.processes[t]) == 0
  {
    if s.processes[t].phase.Head? {
      assert Enabled(s, By(t, Stop)) && Next(s, By(t, Stop)).processes[t].phase.Ended?;
      assert Steps(s, Next(s, By(t, Stop)));
    }
    forall s' | Steps(s, s') && t < |s'.processes| && s'.processes[t].phase.Ended? ensures s.processes[t].phase.Head? {
      var m :| Enabled(s, m) && s' == Next(s, m);
      if m.By? && m.process == t {
        OwnEnd(s, t, m.event);
      }
    }
  }

  lemma OwnEnd(s: State, t: nat, ev: Event)
    requires Enabled(s, By(t, ev)) && NextProcess(s, t, ev).phase.Ended?
    ensures s.processes[t].phase.Head?
  {
  }

  // n moves of process t and of nobody else lead from s to s'; a producer brings this message.
  predicate Alone(s: State, t: nat, msg: Message, n: nat, s': State)
    decreases n
  {
    if n == 0 then s' == s
    else
      t < |s.processes| && Enabled(s, By(t, Own(s.processes[t], msg))) &&
      Alone(Next(s, By(t, Own(s.processes[t], msg))), t, msg, n - 1, s')
  }

  // The moves of its round before the check.
  function MovesLeft(p: Phase): nat {
    match p
    case Head => 6
    case WaitingPermit => 5
    case WaitingAccess => 4
    case Inside => 3
    case Writing => 3
    case Leaving => 2
    case Signalling => 1
    case _ => 0
  }

  // Its queue operation is still to come.
  predicate Before(p: Phase) {
    MovesLeft(p) >= 3
  }

  predicate Waits(p: Phase) {
    MovesLeft(p) >= 5
  }

  // What is left of the round of a producer that needs to wait for nothing.
  lemma {:induction false} ProducerGoesOn(s: State, t: nat, msg: Message) returns (s': State)
    requires t < |s.processes| && s.processes[t].role.Producer? && MovesLeft(s.processes[t].phase) > 0
    requires s.access == 1 - Inner(s.processes[t]) && PassesCheck(msg) && (Waits(s.processes[t].phase) ==> s.freeSpace > 0)
    requires Before(s.processes[t].phase) ==> s.queue.freeSpace > 0 && s.queue.tail < |s.queue.buffer|
    ensures Alone(s, t, msg, MovesLeft(s.processes[t].phase), s')
    ensures s'.processes == s.processes[t := s.processes[t].(phase := Head)] && s'.access == 1 && s'.removed == s.removed
    ensures s'.freeSpace == if Waits(s.processes[t].phase) then s.freeSpace - 1 else s.freeSpace
    ensures s'.elCount == s.elCount + 1
    ensures s'.queue == if Before(s.processes[t].phase) then Enqueued(s.queue, msg) else s.queue
    ensures s'.added == if Before(s.processes[t].phase) then s.added + [msg] else s.added
    decreases MovesLeft(s.processes[t].phase)
  {
    s' := Next(s, By(t, Own(s.processes[t], msg)));
    if !s.processes[t].phase.Signalling? {
      s' := ProducerGoesOn(s', t, msg);
    }
  }

  // A producer left alone, with a permit to be had and the queue free: one turn of its loop adds one
  // message and moves one permit.
  lemma ProducerRound(s: State, t: nat, msg: Message) returns (s': State)
    requires Inv(s) && t < |s.processes| && s.processes[t].role.Producer? && s.processes[t].phase.Head?
    requires s.freeSpace > 0 && s.access == 1 && PassesCheck(msg)
    ensures Alone(s, t, msg, 6, s')
    ensures s.queue.tail < |s.queue.buffer|
    ensures s' == s.(queue := Enqueued(s.queue, msg), added := s.added + [msg], freeSpace := s.freeSpace - 1, elCount := s.elCount + 1)
  {
    s' := ProducerGoesOn(s, t, msg);
    assert s'.processes == s.processes;
  }

  // The reads from here to the comparison, if the slot holds m.
  function ReadsLeft(p: Phase, m: Message): int {
    match p
    case CheckSize(i, _) => 2 * (m.size - i) + 1
    case CheckByte(i, _) => 2 * (m.size - i)
    case CheckHash(_) => 0
    case _ => 2 * m.size + 2
  }

  // calculate_hash on a slot that nobody writes, from any point of it, ends with the hash of the message.
  lemma {:induction false} ReadsAlone(s: State, t: nat, any: Message) returns (s': State)
    requires t < |s.processes| && Checks(s.processes[t]) && s.processes[t].slot.At? && s.processes[t].slot.index < |s.queue.buffer|
    requires var m := s.queue.buffer[s.processes[t].slot.index]; PassesCheck(m) && SumRight(s.processes[t].phase, m)
    ensures var p := s.processes[t]; var m := s.queue.buffer[p.slot.index];
      && ReadsLeft(p.phase, m) >= 0 && Alone(s, t, any, ReadsLeft(p.phase, m), s')
      && s' == s.(processes := s.processes[t := p.(phase := CheckHash(m.hash))])
    decreases ReadsLeft(s.processes[t].phase, s.queue.buffer[s.processes[t].slot.index])
  {
    s' := s;
    if !s.processes[t].phase.CheckHash? {
      AfterReadRight(s.processes[t].phase, s.queue.buffer[s.processes[t].slot.index]);
      s' := ReadsAlone(Next(s, By(t, Read)), t, any);
    }
  }

  // What is left of its round before the check, of a consumer that needs to wait for nothing.
  lemma {:induction false} ConsumerGoesOn(s: State, t: nat, any: Message) returns (s': State)
    requires t < |s.processes| && s.processes[t].role.Consumer? && MovesLeft(s.processes[t].phase) > 0 && !s.processes[t].phase.Writing?
    requires s.access == 1 - Inner(s.processes[t]) && (Waits(s.processes[t].phase) ==> s.elCount > 0)
    requires if Before(s.processes[t].phase) then s.queue.count > 0 && s.queue.head < |s.queue.buffer| else s.processes[t].slot.At?
    ensures Alone(s, t, any, MovesLeft(s.processes[t].phase), s')
    ensures s'.access == 1 && s'.added == s.added && s'.freeSpace == s.freeSpace + 1
    ensures s'.elCount == if Waits(s.processes[t].phase) then s.elCount - 1 else s.elCount
    ensures if Before(s.processes[t].phase)
            then && s'.queue == Dequeued(s.queue) && s'.removed == s.removed + [s.queue.buffer[s.queue.head]]
                 && s'.processes == s.processes[t := Process(Consumer, CheckKind, At(s.queue.head), s.queue.removedCount)]
            else && s'.queue == s.queue && s'.removed == s.removed
                 && s'.processes == s.processes[t := s.processes[t].(phase := CheckKind)]
    decreases MovesLeft(s.processes[t].phase)
  {
    s' := Next(s, By(t, Own(s.processes[t], any)));
    if !s.processes[t].phase.Signalling? {
      s' := ConsumerGoesOn(s', t, any);
    }
  }

  lemma {:induction false} AloneThen(s: State, t: nat, any: Message, n: nat, s1: State, k: nat, s2: State)
    requires Alone(s, t, any, n, s1) && Alone(s1, t, any, k, s2)
    ensures Alone(s, t, any, n + k, s2)
    decreases n
  {
    if n > 0 {
      AloneThen(Next(s, By(t, Own(s.processes[t], any))), t, any, n - 1, s1, k, s2);
    }
  }

  // The state in which it compares the hash of the message m that was at head.
  function Comparing(s: State, t: nat, m: Message): State
    requires t < |s.processes|
  {
    s.(queue := Dequeued(s.queue), removed := s.removed + [m], elCount := if s.elCount > 0 then s.elCount - 1 else 0,
       freeSpace := s.freeSpace + 1,
       processes := s.processes[t := Process(Consumer, CheckHash(m.hash), At(s.queue.head), s.queue.removedCount)])
  }

  lemma ReachesComparison(s: State, t: nat, any: Message, m: Message)
    requires t < |s.processes| && s.processes[t].role.Consumer? && s.processes[t].phase.Head? && s.elCount > 0 && s.access == 1
    requires s.queue.count > 0 && s.queue.head < |s.queue.buffer| && m == s.queue.buffer[s.queue.head] && PassesCheck(m)
    ensures Alone(s, t, any, 6 + (2 * m.size + 2), Comparing(s, t, m))
  {
    var s0 := ConsumerGoesOn(s, t, any);
    var s1 := ReadsAlone(s0, t, any);
    AloneThen(s, t, any, 6, s0, 2 * m.size + 2, s1);
    assert s1.processes == Comparing(s, t, m).processes;
  }

  // A consumer left alone, with a permit to be had and the queue free: one turn of its loop takes
  // the oldest message and moves one permit; after 2 * size + 2 reads it compares the hash it has
  // computed, which is the message's, and goes back to its loop head.
  lemma ConsumerRound(s: State, t: nat, any: Message)
    requires Inv(s) && t < |s.processes| && s.processes[t].role.Consumer? && s.processes[t].phase.Head?
    requires s.elCount > 0 && s.access == 1
    ensures |Contents(s.queue)| > 0
    ensures var m := Contents(s.queue)[0]; var s1 := Comparing(s, t, m);
      && Alone(s, t, any, 6 + (2 * m.size + 2), s1) && Enabled(s1, By(t, Read))
      && Next(s1, By(t, Read)) == s1.(processes := s.processes[t := s1.processes[t].(phase := Head)])
  {
    HeadIntact(s);
    DequeueTakesOldest(s.queue);
    ReachesComparison(s, t, any, Contents(s.queue)[0]);
  }

  lemma Goes(from: State, s: State, m: Move) returns (s': State)
    requires Reaches(from, Steps, s) && Enabled(s, m)
    ensures Reaches(from, Steps, s') && s' == Next(s, m)
  {
    s' := Next(s, m);
    assert Steps(s, s');
    StepLast(from, Steps, s, s');
  }

  lemma {:induction false} AloneReaches(from: State, s: State, t: nat, any: Message, n: nat, s': State)
    requires Reaches(from, Steps, s) && Alone(s, t, any, n, s')
    ensures Reaches(from, Steps, s')
    decreases n
  {
    if n > 0 {
      var s1 := Goes(from, s, By(t, Own(s.processes[t], any)));
      AloneReaches(from, s1, t, any, n - 1, s');
    }
  }

  function Forked(role: Role, n: nat): seq<Process> {
    seq(n, _ => Process(role, Head, NoSlot, 0))
  }

  lemma {:induction false} Forks(from: State, s: State, role: Role, n: nat) returns (s': State)
    requires Reaches(from, Steps, s)
    ensures Reaches(from, Steps, s') && s' == s.(processes := s.processes + Forked(role, n))
    decreases n
  {
    s' := s;
    if n > 0 {
      s' := Goes(from, s, Fork(role));
      s' := Forks(from, s', role, n - 1);
      assert Forked(role, n) == [Process(role, Head, NoSlot, 0)] + Forked(role, n - 1);
    } else {
      assert s.processes + Forked(role, n) == s.processes;
    }
  }

  // There may be any numbers of producers and consumers.
  lemma AnyNumbers(producers: nat, consumers: nat) returns (run: seq<State>)
    ensures IsRun(run) && run[|run| - 1].processes == Forked(Producer, producers) + Forked(Consumer, consumers)
  {
    Stays(Empty(), Steps);
    var s := Forks(Empty(), Empty(), Producer, producers);
    s := Forks(Empty(), s, Consumer, consumers);
    run := RunOn([Empty()], Steps, Steps, s);
    assert s.processes == Forked(Producer, producers) + Forked(Consumer, consumers);
  }

  // A producer and a consumer at their loop heads, n messages in the queue and none removed yet.
  ghost predicate Resting(s: State, n: nat) {
    && Inv(s) && s.access == 1 && s.elCount == n && s.freeSpace == QUEUE_SIZE - n
    && s.removed == [] && s.queue.count == n && s.queue.head == 0
    && s.processes == [Process(Producer, Head, NoSlot, 0), Process(Consumer, Head, NoSlot, 0)]
  }

  function Blank(hash: uint16): Message {
    Message(0, hash, 0, seq(MAX_DATA_SIZE, i => 0))
  }

  lemma {:induction false} FillsUp(from: State, s: State, n: nat) returns (s': State)
    requires Reaches(from, Steps, s) && n <= QUEUE_SIZE && Resting(s, n)
    ensures Reaches(from, Steps, s') && Resting(s', QUEUE_SIZE)
    decreases QUEUE_SIZE - n
  {
    s' := s;
    if n < QUEUE_SIZE {
      s' := ProducerRound(s, 0, Blank(0));
      AloneReaches(from, s, 0, Blank(0), 6, s');
      AloneKeeps(s, 0, Blank(0), 6, s');
      s' := FillsUp(from, s', n + 1);
    }
  }

  lemma {:induction false} AloneKeeps(s: State, t: nat, any: Message, n: nat, s': State)
    requires Inv(s) && Alone(s, t, any, n, s')
    ensures Inv(s')
    decreases n
  {
    if n > 0 {
      NextInv(s, By(t, Own(s.processes[t], any)));
      AloneKeeps(Next(s, By(t, Own(s.processes[t], any))), t, any, n - 1, s');
    }
  }

  // The producer gets to the middle of its copy.
  lemma ProducerScribbles(from: State, s: State, g: Message) returns (s': State)
    requires Reaches(from, Steps, s) && |s.processes| > 0 && s.processes[0] == Process(Producer, Head, NoSlot, 0)
    requires s.freeSpace > 0 && s.access > 0 && s.queue.freeSpace > 0 && s.queue.tail < |s.queue.buffer|
    ensures Reaches(from, Steps, s')
    ensures s' == s.(queue := s.queue.(buffer := s.queue.buffer[s.queue.tail := g]), freeSpace := s.freeSpace - 1, access := s.access - 1,
                     processes := s.processes[0 := Process(Producer, Writing, NoSlot, 0)])
  {
    s' := Goes(from, s, By(0, Go));
    s' := Goes(from, s', By(0, WaitPermit));
    s' := Goes(from, s', By(0, WaitAccess));
    s' := Goes(from, s', By(0, Scribble(g)));
  }

  function Empty(): State {
    State(Queue(seq(QUEUE_SIZE, i => Blank(0)), 0, 0, 0, 0, 0, QUEUE_SIZE), 0, QUEUE_SIZE, 1, [], [], [])
  }

  lemma BothStart() returns (s: State)
    ensures Reaches(Empty(), Steps, s) && Resting(s, 0)
  {
    InitialInv(Empty());
    Stays(Empty(), Steps);
    NextInv(Empty(), Fork(Producer));
    s := Goes(Empty(), Empty(), Fork(Producer));
    NextInv(s, Fork(Consumer));
    s := Goes(Empty(), s, Fork(Consumer));
  }

  // The consumer has dequeued a message from the full queue and is about to check it; then the
  // producer begins to overwrite it.
  lemma OverwrittenInTime(s: State) returns (s': State)
    requires Reaches(Empty(), Steps, s) && Resting(s, QUEUE_SIZE)
    ensures Reaches(Empty(), Steps, s') && |s'.removed| == 1 && s'.queue.freeSpace == 1
    ensures s'.processes == [Process(Producer, Writing, NoSlot, 0), Process(Consumer, CheckKind, At(0), s.queue.removedCount)]
    ensures |s'.queue.buffer| == QUEUE_SIZE && s'.queue.buffer[0] == Blank(1)
  {
    var s1 := ConsumerGoesOn(s, 1, Blank(0));
    AloneReaches(Empty(), s, 1, Blank(0), 6, s1);
    assert s1.queue.tail == 0;
    s' := ProducerScribbles(Empty(), s1, Blank(1));
  }

  // The bound is met: of a full queue a message is dequeued, which leaves one free slot; the copy of
  // one enqueue has begun; and the consumer finds an invalid hash, though all messages are valid.
  lemma CheckCanFail() returns (run: seq<State>)
    ensures IsRun(run)
    ensures var s := run[|run| - 1];
      && |s.processes| == 2 && Total(Writes, s.processes) == 1 && |s.removed| == 1 && s.queue.freeSpace == 1
      && s.processes[1].phase.CheckHash? && s.processes[1].slot == At(0) && |s.queue.buffer| > 0
      && s.processes[1].phase.hash != s.queue.buffer[0].hash
  {
    var s := BothStart();
    s := FillsUp(Empty(), s, 0);
    s := OverwrittenInTime(s);
    s := Goes(Empty(), s, By(1, Read));
    s := Goes(Empty(), s, By(1, Read));
    assert s.processes == [Process(Producer, Writing, NoSlot, 0)] + [s.processes[1]];
    TotalAppend(Writes, [Process(Producer, Writing, NoSlot, 0)], s.processes[1]);
    run := RunOn([Empty()], Steps, Steps, s);
  }
}

/** The processes of lab4 (main.c): producers and consumers around the shared message queue, with
    two counting semaphores and one for access to the queue. */
module BoundedBuffer {
  import opened Messages
  import opened RingBuffer
  import opened Totals
  import opened Runs

  datatype Role = Producer | Consumer

  // Where a process is: at the loop head, at its two waits, inside with the queue (Writing: in the
  // middle of enqueue's copy), at its two signals; a consumer then reads the hash inputs of the
  // message from the slot, one access at a time.
  datatype Phase =
    | Head
    | WaitingPermit
    | WaitingAccess
    | Inside
    | Writing
    | Leaving
    | Signalling
    | CheckKind
    | CheckSize(i: nat, hash: uint16)
    | CheckByte(i: nat, hash: uint16)
    | CheckHash(hash: uint16)
    | Ended

  // slot is the pointer dequeue returned; item, which no step depends on, the number of messages
  // removed before it.
  datatype Process = Process(role: Role, phase: Phase, slot: Slot, item: nat)

  // The shared queue, the semaphores EL_COUNT_SEM, FREE_SPACE_SEM and QUEUE_ACCESS_SEM, the
  // processes, and the messages enqueued and dequeued so far, which no step depends on.
  datatype State = State(queue: Queue, elCount: nat, freeSpace: nat, access: nat, processes: seq<Process>,
                         added: seq<Message>, removed: seq<Message>)

  // Stop: the termination flag is seen at the loop head. Scribble: a part of enqueue's copy.
  datatype Event =
    | Go
    | Stop
    | WaitPermit
    | WaitAccess
    | Scribble(garbage: Message)
    | Operate(msg: Message)
    | SignalAccess
    | SignalPermit
    | Read

  datatype Move = Fork(role: Role) | By(process: nat, event: Event)

  predicate Checks(p: Process) {
    p.phase.CheckKind? || p.phase.CheckSize? || p.phase.CheckByte? || p.phase.CheckHash?
  }

  predicate Enabled(s: State, m: Move) {
    match m
    case Fork(_) => true
    case By(t, ev) =>
      t < |s.processes| &&
      var p := s.processes[t];
      match ev
      case Go => p.phase.Head?
      case Stop => p.phase.Head?
      case WaitPermit => p.phase.WaitingPermit? && (if p.role.Producer? then s.freeSpace else s.elCount) > 0
      case WaitAccess => p.phase.WaitingAccess? && s.access > 0
      case Scribble(_) => p.role.Producer? && (p.phase.Inside? || p.phase.Writing?) && s.queue.freeSpace > 0 && s.queue.tail < |s.queue.buffer|
      case Operate(msg) =>
        if p.role.Producer? then (p.phase.Inside? || p.phase.Writing?) && PassesCheck(msg) && s.queue.tail < |s.queue.buffer|
        else p.phase.Inside? && s.queue.head < |s.queue.buffer|
      case SignalAccess => p.phase.Leaving?
      case SignalPermit => p.phase.Signalling?
      case Read => Checks(p) && p.slot.At? && p.slot.index < |s.queue.buffer| && (p.phase.CheckByte? ==> p.phase.i < MAX_DATA_SIZE)
  }

  // calculate_hash on the slot, and the comparison of its result with the slot's hash.
  function AfterRead(phase: Phase, m: Message): Phase
    requires phase.CheckByte? ==> phase.i < MAX_DATA_SIZE
  {
    match phase
    case CheckKind => CheckSize(0, Add16(0, m.kind))
    case CheckSize(i, h) => if i < m.size then CheckByte(i, h) else CheckHash(h)
    case CheckByte(i, h) => CheckSize(i + 1, Add16(h, m.data[i]))
    case _ => Head
  }

  function NextProcess(s: State, t: nat, ev: Event): Process
    requires Enabled(s, By(t, ev))
  {
    var p := s.processes[t];
    match ev
    case Go => p.(phase := WaitingPermit)
    case Stop => p.(phase := Ended)
    case WaitPermit => p.(phase := WaitingAccess)
    case WaitAccess => p.(phase := Inside)
    case Scribble(_) => p.(phase := Writing)
    case Operate(_) =>
      if p.role.Producer? then p.(phase := Leaving)
      else p.(phase := Leaving, slot := if s.queue.count == 0 then NoSlot else At(s.queue.head), item := s.queue.removedCount)
    case SignalAccess => p.(phase := Signalling)
    case SignalPermit => p.(phase := if p.role.Consumer? && p.slot.At? then CheckKind else Head)
    case Read => p.(phase := AfterRead(p.phase, s.queue.buffer[p.slot.index]))
  }

  function NextShared(s: State, t: nat, ev: Event): State
    requires Enabled(s, By(t, ev))
  {
    var p := s.processes[t];
    match ev
    case WaitPermit => if p.role.Producer? then s.(freeSpace := s.freeSpace - 1) else s.(elCount := s.elCount - 1)
    case WaitAccess => s.(access := s.access - 1)
    case Scribble(g) => s.(queue := s.queue.(buffer := s.queue.buffer[s.queue.tail := g]))
    case Operate(msg) =>
      if p.role.Producer? then
        s.(queue := Enqueued(s.queue, msg), added := if s.queue.freeSpace == 0 then s.added else s.added + [msg])
      else
        s.(queue := Dequeued(s.queue), removed := if s.queue.count == 0 then s.removed else s.removed + [s.queue.buffer[s.queue.head]])
    case SignalAccess => s.(access := s.access + 1)
    case SignalPermit => if p.role.Producer? then s.(elCount := s.elCount + 1) else s.(freeSpace := s.freeSpace + 1)
    case _ => s
  }

  function Next(s: State, m: Move): State
    requires Enabled(s, m)
  {
    match m
    case Fork(role) => s.(processes := s.processes + [Process(role, Head, NoSlot, 0)])
    case By(t, ev) => NextShared(s, t, ev).(processes := s.processes[t := NextProcess(s, t, ev)])
  }

  predicate InCriticalSection(p: Process) {
    p.phase.Inside? || p.phase.Writing? || p.phase.Leaving?
  }

  function Inner(p: Process): nat {
    if InCriticalSection(p) then 1 else 0
  }

  // Free slots a process has been promised, or has freed without telling.
  function SpaceHeld(p: Process): nat {
    if p.role.Producer? && (p.phase.WaitingAccess? || p.phase.Inside? || p.phase.Writing?) then 1
    else if p.role.Consumer? && (p.phase.Leaving? || p.phase.Signalling?) then 1
    else 0
  }

  // Messages a process has been promised, or has added without telling.
  function ItemHeld(p: Process): nat {
    if p.role.Consumer? && (p.phase.WaitingAccess? || p.phase.Inside?) then 1
    else if p.role.Producer? && (p.phase.Leaving? || p.phase.Signalling?) then 1
    else 0
  }

  function InFlight(p: Process): nat {
    if p.phase.WaitingAccess? || InCriticalSection(p) || p.phase.Signalling? then 1 else 0
  }

  function Writes(p: Process): nat {
    if p.phase.Writing? then 1 else 0
  }

  // Message n goes to slot n modulo the queue size (SlotOfIsRemainder).
  function SlotOf(n: nat): (r: nat)
    ensures r < QUEUE_SIZE
  {
    if n < QUEUE_SIZE then n else SlotOf(n - QUEUE_SIZE)
  }

  lemma {:induction false} SlotOfIsRemainder(n: nat)
    ensures SlotOf(n) == n % QUEUE_SIZE
  {
    if n >= QUEUE_SIZE {
      SlotOfIsRemainder(n - QUEUE_SIZE);
    }
  }

  lemma {:induction false} SlotAhead(n: nat, i: nat)
    requires i <= QUEUE_SIZE
    ensures SlotOf(n + i) == Wrapped(SlotOf(n) + i)
  {
    if n >= QUEUE_SIZE {
      SlotAhead(n - QUEUE_SIZE, i);
    }
  }

  // Of the messages that go to one slot, the next is QUEUE_SIZE places later.
  lemma {:induction false} OtherSlot(n: nat, k: nat)
    requires n < k < n + QUEUE_SIZE
    ensures SlotOf(n) != SlotOf(k)
  {
    SlotAhead(n, k - n);
  }

  // Message n has not begun to be overwritten.
  predicate Intact(s: State, n: nat) {
    n < |s.added| <= n + QUEUE_SIZE - Total(Writes, s.processes)
  }

  ghost predicate QueueInv(s: State) {
    && RingInv(s)
    && |s.removed| <= |s.added| && s.removed == s.added[..|s.removed|]
    && (forall n: nat :: Intact(s, n) ==> s.queue.buffer[SlotOf(n)] == s.added[n])
    && forall n :: 0 <= n < |s.added| ==> PassesCheck(s.added[n])
  }

  predicate RingInv(s: State) {
    && WellFormed(s.queue)
    && s.queue.addedCount == |s.added| && s.queue.removedCount == |s.removed|
    && s.queue.head == SlotOf(|s.removed|) && s.queue.tail == SlotOf(|s.added|)
  }

  ghost predicate PermitInv(s: State) {
    && s.access + Total(Inner, s.processes) == 1
    && s.queue.freeSpace == s.freeSpace + Total(SpaceHeld, s.processes)
    && s.queue.count == s.elCount + Total(ItemHeld, s.processes)
  }

  // What a consumer has computed from an intact slot is right so far.
  predicate CheckInv(s: State, p: Process) {
    && (p.phase.CheckSize? ==> p.phase.i < MAX_DATA_SIZE)
    && (p.phase.CheckByte? ==> p.phase.i < MAX_DATA_SIZE - 1)
    && (Intact(s, p.item) ==>
          SumRight(p.phase, s.added[p.item]))
  }

  // What has been computed so far is right for message m.
  predicate SumRight(phase: Phase, m: Message) {
    match phase
    case CheckSize(i, h) => i <= m.size && h == m.kind + Sum(m.data, i)
    case CheckByte(i, h) => i < m.size && h == m.kind + Sum(m.data, i)
    case CheckHash(h) => h == TrueHash(m)
    case _ => true
  }

  lemma AfterReadRight(phase: Phase, m: Message)
    requires SumRight(phase, m)
    ensures SumRight(AfterRead(phase, m), m)
  {
    if phase.CheckByte? {
      HashFits(m, phase.i + 1);
    }
  }

  predicate ProcessInv(s: State, p: Process) {
    && (p.role.Producer? ==> !Checks(p))
    && (p.role.Consumer? ==> !p.phase.Writing?)
    && (p.role.Consumer? && (p.phase.Leaving? || p.phase.Signalling? || Checks(p)) ==>
          p.item < |s.removed| && p.slot == At(SlotOf(p.item)))
    && CheckInv(s, p)
  }

  ghost predicate Inv(s: State) {
    && QueueInv(s)
    && PermitInv(s)
    && forall t :: 0 <= t < |s.processes| ==> ProcessInv(s, s.processes[t])
  }

  // queue_init and init_semaphores; whatever the buffer holds.
  predicate Initial(s: State) {
    && |s.queue.buffer| == QUEUE_SIZE
    && s.queue == Queue(s.queue.buffer, 0, 0, 0, 0, 0, QUEUE_SIZE)
    && s.elCount == 0 && s.freeSpace == QUEUE_SIZE && s.access == 1
    && s.processes == [] && s.added == [] && s.removed == []
  }

  lemma InitialInv(s: State)
    requires Initial(s)
    ensures Inv(s)
  {
  }

  lemma TotalsMove(s: State, t: nat, p: Process)
    requires t < |s.processes|
    ensures var ps, ps' := s.processes, s.processes[t := p];
      && Total(Inner, ps') + Inner(ps[t]) == Total(Inner, ps) + Inner(p)
      && Total(SpaceHeld, ps') + SpaceHeld(ps[t]) == Total(SpaceHeld, ps) + SpaceHeld(p)
      && Total(ItemHeld, ps') + ItemHeld(ps[t]) == Total(ItemHeld, ps) + ItemHeld(p)
      && Total(Writes, ps') + Writes(ps[t]) == Total(Writes, ps) + Writes(p)
  {
    TotalUpdate(Inner, s.processes, t, p);
    TotalUpdate(SpaceHeld, s.processes, t, p);
    TotalUpdate(ItemHeld, s.processes, t, p);
    TotalUpdate(Writes, s.processes, t, p);
  }

  lemma TotalsFork(s: State, p: Process)
    requires p.phase.Head?
    ensures var ps' := s.processes + [p];
      && Total(Inner, ps') == Total(Inner, s.processes)
      && Total(SpaceHeld, ps') == Total(SpaceHeld, s.processes)
      && Total(ItemHeld, ps') == Total(ItemHeld, s.processes)
      && Total(Writes, ps') == Total(Writes, s.processes)
  {
    TotalAppend(Inner, s.processes, p);
    TotalAppend(SpaceHeld, s.processes, p);
    TotalAppend(ItemHeld, s.processes, p);
    TotalAppend(Writes, s.processes, p);
  }

  // A process at the queue finds the room or the message it waited for: the branches of enqueue
  // and dequeue for a full and an empty queue are dead.
  lemma PermitMeansRoom(s: State, t: nat)
    requires PermitInv(s) && t < |s.processes|
    ensures SpaceHeld(s.processes[t]) == 1 ==> s.queue.freeSpace > 0
    ensures ItemHeld(s.processes[t]) == 1 ==> s.queue.count > 0
  {
    TotalAtLeast(SpaceHeld, s.processes, t);
    TotalAtLeast(ItemHeld, s.processes, t);
  }

  lemma PermitsKept(s: State, t: nat, ev: Event)
    requires Inv(s) && Enabled(s, By(t, ev))
    ensures PermitInv(Next(s, By(t, ev)))
  {
    match ev
    case Operate(_) => OperateKeepsPermits(s, t, ev);
    case WaitPermit => SemaphoresKeepPermits(s, t, ev);
    case WaitAccess => SemaphoresKeepPermits(s, t, ev);
    case SignalAccess => SemaphoresKeepPermits(s, t, ev);
    case SignalPermit => SemaphoresKeepPermits(s, t, ev);
    case _ => OthersKeepPermits(s, t, ev);
  }

  lemma OperateKeepsPermits(s: State, t: nat, ev: Event)
    requires Inv(s) && Enabled(s, By(t, ev)) && ev.Operate?
    ensures PermitInv(Next(s, By(t, ev)))
  {
    TotalsMove(s, t, NextProcess(s, t, ev));
    PermitMeansRoom(s, t);
    assert ProcessInv(s, s.processes[t]);
  }

  lemma SemaphoresKeepPermits(s: State, t: nat, ev: Event)
    requires Inv(s) && Enabled(s, By(t, ev)) && (ev.WaitPermit? || ev.WaitAccess? || ev.SignalAccess? || ev.SignalPermit?)
    ensures PermitInv(Next(s, By(t, ev)))
  {
    TotalsMove(s, t, NextProcess(s, t, ev));
  }

  lemma OthersKeepPermits(s: State, t: nat, ev: Event)
    requires Inv(s) && Enabled(s, By(t, ev)) && (ev.Go? || ev.Stop? || ev.Scribble? || ev.Read?)
    ensures PermitInv(Next(s, By(t, ev)))
  {
    TotalsMove(s, t, NextProcess(s, t, ev));
  }

  // Moves only shorten the time a message stays intact.
  lemma {:induction false} IntactBefore(s: State, t: nat, ev: Event, n: nat)
    requires Inv(s) && Enabled(s, By(t, ev)) && n < |s.added| && Intact(Next(s, By(t, ev)), n)
    ensures Intact(s, n) && Next(s, By(t, ev)).added[n] == s.added[n]
    ensures s.queue.tail != SlotOf(n) || !(ev.Scribble? || (ev.Operate? && s.processes[t].role.Producer?))
  {
    TotalsMove(s, t, NextProcess(s, t, ev));
    PermitMeansRoom(s, t);
    TotalAtLeast(Writes, Next(s, By(t, ev)).processes, t);
    if ev.Scribble? || (ev.Operate? && s.processes[t].role.Producer?) {
      OtherSlot(n, |s.added|);
    }
  }

  lemma NextSlot(n: nat)
    ensures (SlotOf(n) + 1) % QUEUE_SIZE == SlotOf(n + 1)
  {
    WrappedIsRemainder(SlotOf(n) + 1);
    SlotAhead(n, 1);
  }

  lemma AddKeepsRing(s: State, msg: Message)
    requires RingInv(s) && s.queue.freeSpace > 0
    ensures RingInv(s.(queue := Enqueued(s.queue, msg), added := s.added + [msg]))
  {
    EnqueueAppends(s.queue, msg);
    NextSlot(|s.added|);
  }

  lemma RemoveKeepsRing(s: State)
    requires RingInv(s) && s.queue.count > 0
    ensures RingInv(s.(queue := Dequeued(s.queue), removed := s.removed + [s.queue.buffer[s.queue.head]]))
  {
    DequeueTakesOldest(s.queue);
    NextSlot(|s.removed|);
  }

  lemma RingKept(s: State, t: nat, ev: Event)
    requires Inv(s) && Enabled(s, By(t, ev))
    ensures RingInv(Next(s, By(t, ev)))
  {
    PermitMeansRoom(s, t);
    assert ProcessInv(s, s.processes[t]);
    if ev.Operate? && s.processes[t].role.Producer? {
      AddKeepsRing(s, ev.msg);
    } else if ev.Operate? {
      RemoveKeepsRing(s);
    }
  }

  lemma {:induction false} BufferKept(s: State, t: nat, ev: Event, n: nat)
    requires Inv(s) && Enabled(s, By(t, ev)) && Intact(Next(s, By(t, ev)), n)
    ensures RingInv(Next(s, By(t, ev))) && Next(s, By(t, ev)).queue.buffer[SlotOf(n)] == Next(s, By(t, ev)).added[n]
  {
    RingKept(s, t, ev);
    PermitMeansRoom(s, t);
    if n < |s.added| {
      IntactBefore(s, t, ev, n);
    }
  }

  lemma LogsKept(s: State, t: nat, ev: Event)
    requires Inv(s) && Enabled(s, By(t, ev))
    ensures var s' := Next(s, By(t, ev));
      && |s'.removed| <= |s'.added| && s'.removed == s'.added[..|s'.removed|]
      && forall n :: 0 <= n < |s'.added| ==> PassesCheck(s'.added[n])
  {
    PermitMeansRoom(s, t);
    if ev.Operate? && s.processes[t].role.Consumer? {
      HeadIntact(s);
    }
  }

  lemma QueueKept(s: State, t: nat, ev: Event)
    requires Inv(s) && Enabled(s, By(t, ev))
    ensures QueueInv(Next(s, By(t, ev)))
  {
    RingKept(s, t, ev);
    LogsKept(s, t, ev);
    forall n: nat | Intact(Next(s, By(t, ev)), n)
      ensures Next(s, By(t, ev)).queue.buffer[SlotOf(n)] == Next(s, By(t, ev)).added[n]
    {
      BufferKept(s, t, ev, n);
    }
  }

  // Every message in the queue is intact.
  lemma QueuedIntact(s: State, n: nat)
    requires PermitInv(s) && WellFormed(s.queue) && s.queue.addedCount == |s.added| && s.queue.removedCount == |s.removed|
    requires forall t :: 0 <= t < |s.processes| ==> ProcessInv(s, s.processes[t])
    requires |s.removed| <= n < |s.added|
    ensures Intact(s, n)
  {
    WritersHoldSpace(s, s.processes);
  }

  lemma {:induction false} WritersHoldSpace(s: State, ps: seq<Process>)
    requires forall t :: 0 <= t < |ps| ==> ProcessInv(s, ps[t])
    ensures Total(Writes, ps) <= Total(SpaceHeld, ps)
  {
    if ps != [] {
      WritersHoldSpace(s, ps[1..]);
      assert ProcessInv(s, ps[0]);
    }
  }

  lemma HeadIntact(s: State)
    requires Inv(s) && s.queue.count > 0
    ensures Intact(s, |s.removed|)
    ensures s.queue.buffer[s.queue.head] == s.added[|s.removed|]
    ensures s.added[..|s.removed| + 1] == s.removed + [s.queue.buffer[s.queue.head]]
  {
    QueuedIntact(s, |s.removed|);
  }

  // Reading the intact slot of message m, where the sum so far is right.
  lemma ReadsRight(s: State, t: nat)
    requires Inv(s) && Enabled(s, By(t, Read))
    ensures CheckInv(Next(s, By(t, Read)), NextProcess(s, t, Read))
  {
    var s', p, p' := Next(s, By(t, Read)), s.processes[t], NextProcess(s, t, Read);
    assert ProcessInv(s, p);
    if Intact(s', p.item) {
      IntactBefore(s, t, Read, p.item);
      assert s.queue.buffer[p.slot.index] == s.added[p.item];
      AfterReadRight(p.phase, s.added[p.item]);
    }
  }

  lemma OwnKept(s: State, t: nat, ev: Event)
    requires Inv(s) && Enabled(s, By(t, ev))
    ensures ProcessInv(Next(s, By(t, ev)), NextProcess(s, t, ev))
  {
    assert ProcessInv(s, s.processes[t]);
    PermitMeansRoom(s, t);
    if ev.Read? {
      ReadsRight(s, t);
    }
  }

  lemma OthersKept(s: State, t: nat, ev: Event, u: nat)
    requires Inv(s) && Enabled(s, By(t, ev)) && u < |s.processes| && u != t
    ensures ProcessInv(Next(s, By(t, ev)), s.processes[u])
  {
    var p, s' := s.processes[u], Next(s, By(t, ev));
    assert ProcessInv(s, p);
    if Checks(p) && Intact(s', p.item) {
      IntactBefore(s, t, ev, p.item);
    }
  }

  lemma NextInv(s: State, m: Move)
    requires Inv(s) && Enabled(s, m)
    ensures Inv(Next(s, m))
  {
    var s' := Next(s, m);
    match m
    case Fork(role) =>
      TotalsFork(s, Process(role, Head, NoSlot, 0));
      assert forall n: nat :: Intact(s', n) ==> Intact(s, n);
      forall t | 0 <= t < |s'.processes| ensures ProcessInv(s', s'.processes[t]) {
        assert t < |s.processes| ==> ProcessInv(s, s.processes[t]);
      }
    case By(t, ev) =>
      QueueKept(s, t, ev);
      PermitsKept(s, t, ev);
      OwnKept(s, t, ev);
      forall u | 0 <= u < |s'.processes| ensures ProcessInv(s', s'.processes[u]) {
        if u != t {
          OthersKept(s, t, ev, u);
        }
      }
  }

  ghost predicate Steps(s: State, s': State) {
    exists m {:trigger Enabled(s, m)} :: Enabled(s, m) && s' == Next(s, m)
  }

  // The states of a run: processes forked at any time, moves of any processes in any order.
  ghost predicate IsRun(run: seq<State>) {
    && |run| > 0 && Initial(run[0])
    && forall i :: 0 < i < |run| ==> Steps(run[i - 1], run[i])
  }

  lemma RunInv(run: seq<State>, i: nat)
    requires IsRun(run) && i < |run|
    ensures Inv(run[i])
  {
    InitialInv(run[0]);
    forall s, s' | Inv(s) && Steps(s, s') ensures Inv(s') {
      var m :| Enabled(s, m) && s' == Next(s, m);
      NextInv(s, m);
    }
    Kept(run, Steps, Inv, 0, i);
  }

  // Mutual exclusion.
  lemma AccessExcludes(run: seq<State>, now: nat, t: nat, u: nat)
    requires IsRun(run) && now < |run| && t < u < |run[now].processes|
    ensures !InCriticalSection(run[now].processes[t]) || !InCriticalSection(run[now].processes[u])
  {
    RunInv(run, now);
    TotalOfTwo(Inner, run[now].processes, t, u);
  }

  lemma {:induction false} HeldInFlight(ps: seq<Process>)
    requires forall t :: 0 <= t < |ps| && ps[t].role.Consumer? ==> !ps[t].phase.Writing?
    ensures Total(SpaceHeld, ps) + Total(ItemHeld, ps) == Total(InFlight, ps)
  {
    if ps != [] {
      HeldInFlight(ps[1..]);
      assert ps[0].role.Consumer? ==> !ps[0].phase.Writing?;
    }
  }

  // Permits are conserved: the two counting semaphores and the permits in flight make up the queue.
  lemma PermitsConserved(run: seq<State>, now: nat)
    requires IsRun(run) && now < |run|
    ensures var s := run[now]; s.elCount + s.freeSpace + Total(InFlight, s.processes) == QUEUE_SIZE
  {
    RunInv(run, now);
    var ps := run[now].processes;
    forall t | 0 <= t < |ps| && ps[t].role.Consumer? ensures !ps[t].phase.Writing? {
      assert ProcessInv(run[now], ps[t]);
    }
    HeldInFlight(ps);
  }

  // No process ever finds the queue full or empty.
  lemma NeverFullNorEmpty(run: seq<State>, now: nat, t: nat)
    requires IsRun(run) && now < |run| && t < |run[now].processes|
    requires run[now].processes[t].phase.Inside? || run[now].processes[t].phase.Writing?
    ensures run[now].processes[t].role.Producer? ==> run[now].queue.freeSpace > 0
    ensures run[now].processes[t].role.Consumer? ==> run[now].queue.count > 0
  {
    RunInv(run, now);
    assert ProcessInv(run[now], run[now].processes[t]);
    PermitMeansRoom(run[now], t);
  }

  // The ring refines a queue: what was added is what was removed, in order, and then what is in it.
  lemma RingIsQueue(run: seq<State>, now: nat)
    requires IsRun(run) && now < |run|
    ensures var s := run[now];
      && WellFormed(s.queue) && s.added == s.removed + Contents(s.queue)
      && s.queue.addedCount == |s.added| && s.queue.removedCount == |s.removed|
  {
    RunInv(run, now);
    QueueHolds(run[now]);
  }

  lemma QueueHolds(s: State)
    requires Inv(s)
    ensures s.added == s.removed + Contents(s.queue)
  {
    forall i: nat | i < s.queue.count ensures Contents(s.queue)[i] == s.added[|s.removed| + i] {
      SlotHolds(s, i);
    }
    assert |s.added| == |s.removed| + s.queue.count;
  }

  lemma SlotHolds(s: State, i: nat)
    requires Inv(s) && i < s.queue.count
    ensures |s.removed| + i < |s.added| && Contents(s.queue)[i] == s.added[|s.removed| + i]
  {
    QueuedIntact(s, |s.removed| + i);
    SlotAhead(|s.removed|, i);
  }

  // A consumer that compares hashes while its message is intact, that is before the write of the
  // message QUEUE_SIZE places later has begun, finds them equal. (That write is the f-th enqueue
  // after a dequeue that left f free slots, RingBuffer.SlotLifetime.)
  lemma IntactMessagePasses(run: seq<State>, now: nat, t: nat)
    requires IsRun(run) && now < |run| && t < |run[now].processes|
    requires run[now].processes[t].phase.CheckHash? && Intact(run[now], run[now].processes[t].item)
    ensures var s, p := run[now], run[now].processes[t];
      && p.slot == At(p.item % QUEUE_SIZE) && |s.queue.buffer| == QUEUE_SIZE
      && s.queue.buffer[p.slot.index] == s.added[p.item] && p.phase.hash == s.added[p.item].hash
  {
    RunInv(run, now);
    SlotOfIsRemainder(run[now].processes[t].item);
    assert ProcessInv(run[now], run[now].processes[t]);
  }

  // If its dequeue left f free slots, the message stays intact through f - 1 further enqueues and
  // until the copy of the f-th begins.
  lemma IntactForFreeSpace(run: seq<State>, now: nat, t: nat, any: Message, later: nat)
    requires IsRun(run) && now < |run| && later < |run| && Enabled(run[now], By(t, Operate(any)))
    requires run[now].processes[t].role.Consumer?
    requires |run[later].added| >= |run[now].added|
    ensures var s := Next(run[now], By(t, Operate(any)));
      Intact(run[later], s.processes[t].item) <==>
      |run[later].added| - |s.added| + Total(Writes, run[later].processes) <= s.queue.freeSpace - 1
  {
    NeverFullNorEmpty(run, now, t);
    RunInv(run, now);
    NextInv(run[now], By(t, Operate(any)));
  }

  lemma AddedGrows(run: seq<State>, now: nat, later: nat)
    requires IsRun(run) && now <= later < |run|
    ensures run[now].added <= run[later].added
  {
    var past := run[now].added;
    forall s: State, s': State | past <= s.added && Steps(s, s') ensures past <= s'.added {
      var m :| Enabled(s, m) && s' == Next(s, m);
    }
    Kept(run, Steps, (s: State) => past <= s.added, now, later);
  }

  predicate Outside(s: State, t: nat) {
    t < |s.processes| ==> !s.processes[t].phase.Inside?
  }

  lemma ItemStep(s: State, s': State, t: nat)
    requires Steps(s, s') && t < |s.processes| && Outside(s, t)
    ensures t < |s'.processes| && s'.processes[t].item == s.processes[t].item
  {
    var m :| Enabled(s, m) && s' == Next(s, m);
    if m.By? && m.process == t {
      OwnItem(s, t, m.event);
    }
  }

  lemma OwnItem(s: State, t: nat, ev: Event)
    requires Enabled(s, By(t, ev)) && Outside(s, t)
    ensures NextProcess(s, t, ev).item == s.processes[t].item
  {
  }

  // Between two dequeues of a process its item stays.
  lemma {:induction false} ItemStays(run: seq<State>, now: nat, later: nat, t: nat)
    requires IsRun(run) && now <= later < |run| && t < |run[now].processes|
    requires forall i :: now <= i < later ==> Outside(run[i], t)
    ensures t < |run[later].processes| && run[later].processes[t].item == run[now].processes[t].item
    decreases later
  {
    if now < later {
      ItemStays(run, now, later - 1, t);
      assert Steps(run[later - 1], run[later]);
      ItemStep(run[later - 1], run[later], t);
    }
  }

  // A message passes its check: a consumer dequeues it, leaving f free slots, and does not dequeue
  // again before it compares the hashes; if fewer than f enqueues have begun their copy by then,
  // the hashes are equal, and the slot still holds the message dequeued.
  lemma DequeuedMessagePasses(run: seq<State>, now: nat, t: nat, any: Message, later: nat)
    requires IsRun(run) && now < later < |run| && Enabled(run[now], By(t, Operate(any)))
    requires run[now].processes[t].role.Consumer? && run[now + 1] == Next(run[now], By(t, Operate(any)))
    requires forall i :: now < i < later ==> Outside(run[i], t)
    requires |run[later].added| - |run[now + 1].added| + Total(Writes, run[later].processes) < run[now + 1].queue.freeSpace
    ensures t < |run[later].processes|
    ensures var p := run[later].processes[t]; p.phase.CheckHash? ==>
      && p.slot.At? && p.slot.index < |run[later].queue.buffer| && run[now].queue.head < |run[now].queue.buffer|
      && run[later].queue.buffer[p.slot.index] == run[now].queue.buffer[run[now].queue.head]
      && p.phase.hash == run[later].queue.buffer[p.slot.index].hash
  {
    ItemStays(run, now + 1, later, t);
    AddedGrows(run, now, later);
    IntactForFreeSpace(run, now, t, any, later);
    TakesHead(run, now, t);
    if run[later].processes[t].phase.CheckHash? {
      IntactMessagePasses(run, later, t);
    }
  }

  // The message a consumer dequeues.
  lemma TakesHead(run: seq<State>, now: nat, t: nat)
    requires IsRun(run) && now < |run| && t < |run[now].processes|
    requires run[now].processes[t].role.Consumer? && run[now].processes[t].phase.Inside?
    ensures var s := run[now];
      && |s.removed| == s.queue.removedCount < |s.added| && s.queue.head < |s.queue.buffer|
      && s.queue.buffer[s.queue.head] == s.added[s.queue.removedCount]
  {
    RunInv(run, now);
    NeverFullNorEmpty(run, now, t);
    HeadIntact(run[now]);
  }

  // No deadlock: with a producer and a consumer that have not ended, some process can move.
  lemma SomeProcessCanMove(run: seq<State>, now: nat, producer: nat, consumer: nat) returns (t: nat, ev: Event)
    requires IsRun(run) && now < |run| && producer < |run[now].processes| && consumer < |run[now].processes|
    requires run[now].processes[producer].role.Producer? && !run[now].processes[producer].phase.Ended?
    requires run[now].processes[consumer].role.Consumer? && !run[now].processes[consumer].phase.Ended?
    ensures Enabled(run[now], By(t, ev)) && !ev.Stop?
  {
    RunInv(run, now);
    var s := run[now];
    if u :| 0 <= u < |s.processes| && Ready(s, u) {
      ReadyCanMove(s, u);
      t, ev := u, ReadyMove(s, u);
    } else {
      assert !Ready(s, producer) && !Ready(s, consumer);
      forall u | 0 <= u < |s.processes| ensures Inner(s.processes[u]) == 0 { assert !Ready(s, u); }
      TotalZero(Inner, s.processes);
      forall u | 0 <= u < |s.processes| ensures SpaceHeld(s.processes[u]) == 0 == ItemHeld(s.processes[u]) { assert !Ready(s, u); }
      TotalZero(SpaceHeld, s.processes);
      TotalZero(ItemHeld, s.processes);
      t, ev := if s.freeSpace > 0 then producer else consumer, WaitPermit;
    }
  }

  // The process is not waiting, or only for access that it can have.
  predicate Ready(s: State, t: nat)
    requires t < |s.processes|
  {
    var p := s.processes[t].phase;
    !p.Ended? && !p.WaitingPermit? && (p.WaitingAccess? ==> s.access > 0)
  }

  lemma ReadyCanMove(s: State, t: nat)
    requires Inv(s) && t < |s.processes| && Ready(s, t)
    ensures Enabled(s, By(t, ReadyMove(s, t))) && !ReadyMove(s, t).Stop?
  {
    assert ProcessInv(s, s.processes[t]);
  }

  // What it does next; a producer finishes its copy with some message that passes the check.
  function ReadyMove(s: State, t: nat): Event
    requires t < |s.processes|
  {
    Own(s.processes[t], Message(0, 0, 0, seq(MAX_DATA_SIZE, i => 0)))
  }

  // What a process that goes on does next, and a producer with which message.
  function Own(p: Process, msg: Message): Event {
    match p.phase
    case Head => Go
    case WaitingPermit => WaitPermit
    case WaitingAccess => WaitAccess
    case Inside => Operate(msg)
    case Writing => Operate(msg)
    case Leaving => SignalAccess
    case Signalling => SignalPermit
    case _ => Read
  }
}

/** The shared message queue of lab4 (ring_buffer.c): a ring with redundant counters. */
module RingBuffer {
  import opened Messages

  const QUEUE_SIZE: nat := 10

  // The fields of message_queue as a value.
  datatype Queue = Queue(buffer: seq<Message>, head: nat, tail: nat, count: nat, addedCount: nat, removedCount: nat, freeSpace: nat)

  // x % QUEUE_SIZE, where x is less than twice the size (WrappedIsRemainder).
  function Wrapped(x: nat): nat {
    if x < QUEUE_SIZE then x else x - QUEUE_SIZE
  }

  lemma WrappedIsRemainder(x: nat)
    requires x < 2 * QUEUE_SIZE
    ensures Wrapped(x) == x % QUEUE_SIZE
  {
  }

  // What every operation keeps.
  predicate WellFormed(q: Queue) {
    && |q.buffer| == QUEUE_SIZE && q.head < QUEUE_SIZE
    && q.count + q.freeSpace == QUEUE_SIZE
    && q.addedCount - q.removedCount == q.count
    && q.tail == Wrapped(q.head + q.count)
  }

  // The messages in the queue, oldest first.
  function Contents(q: Queue): (s: seq<Message>)
    requires WellFormed(q)
    ensures |s| == q.count
  {
    seq(q.count, i requires 0 <= i < q.count => q.buffer[Wrapped(q.head + i)])
  }

  function Enqueued(q: Queue, msg: Message): Queue
    requires q.tail < |q.buffer|
  {
    if q.freeSpace == 0 then q
    else Queue(q.buffer[q.tail := msg], q.head, (q.tail + 1) % QUEUE_SIZE, q.count + 1, q.addedCount + 1, q.removedCount, q.freeSpace - 1)
  }

  function Dequeued(q: Queue): Queue {
    if q.count == 0 then q
    else Queue(q.buffer, (q.head + 1) % QUEUE_SIZE, q.tail, q.count - 1, q.addedCount, q.removedCount + 1, q.freeSpace + 1)
  }

  // enqueue refines appending to a bounded queue.
  lemma EnqueueAppends(q: Queue, msg: Message)
    requires WellFormed(q)
    ensures WellFormed(Enqueued(q, msg))
    ensures Contents(Enqueued(q, msg)) == if |Contents(q)| == QUEUE_SIZE then Contents(q) else Contents(q) + [msg]
  {
    if q.freeSpace > 0 {
      var q' := Enqueued(q, msg);
      WrappedIsRemainder(q.tail + 1);
      forall i | 0 <= i < q'.count ensures Contents(q')[i] == (Contents(q) + [msg])[i] {
        if i < q.count {
          assert Wrapped(q.head + i) != q.tail;
        }
      }
    }
  }

  // dequeue refines taking the oldest message, which stays readable in the old head slot.
  lemma DequeueTakesOldest(q: Queue)
    requires WellFormed(q)
    ensures WellFormed(Dequeued(q))
    ensures q.count == 0 ==> Contents(q) == [] && Dequeued(q) == q
    ensures q.count > 0 ==> Contents(q) == [Dequeued(q).buffer[q.head]] + Contents(Dequeued(q))
  {
    if q.count > 0 {
      HeadMoves(q);
      var rest := Contents(Dequeued(q));
      forall i | 0 <= i < q.count ensures Contents(q)[i] == ([q.buffer[q.head]] + rest)[i] {
        if i == 0 {
          assert Wrapped(q.head + i) == q.head;
        } else {
          assert rest[i - 1] == Contents(q)[i - 1 + 1];
        }
      }
    }
  }

  lemma HeadMoves(q: Queue)
    requires WellFormed(q) && q.count > 0
    ensures WellFormed(Dequeued(q))
    ensures forall i :: 0 <= i < q.count - 1 ==> Contents(Dequeued(q))[i] == Contents(q)[i + 1]
  {
    WrappedIsRemainder(q.head + 1);
    var q' := Dequeued(q);
    forall i: nat | i < q.count - 1 ensures Contents(q')[i] == Contents(q)[i + 1] {
      assert Wrapped(q'.head + i) == Wrapped(q.head + (i + 1));
    }
  }

  datatype Op = Enqueue(msg: Message) | Dequeue

  function Apply(q: Queue, op: Op): Queue
    requires q.tail < |q.buffer|
  {
    match op
    case Enqueue(msg) => Enqueued(q, msg)
    case Dequeue => Dequeued(q)
  }

  // The queue after the operations, in order.
  function ApplyAll(q: Queue, ops: seq<Op>): (r: Queue)
    requires WellFormed(q)
    ensures WellFormed(r)
    decreases |ops|
  {
    if ops == [] then q
    else
      ApplyKeepsForm(q, ops[0]);
      ApplyAll(Apply(q, ops[0]), ops[1..])
  }

  lemma ApplyKeepsForm(q: Queue, op: Op)
    requires WellFormed(q)
    ensures WellFormed(Apply(q, op))
  {
    match op
    case Enqueue(msg) => EnqueueAppends(q, msg);
    case Dequeue => DequeueTakesOldest(q);
  }

  // The slot that the k-th successful enqueue from now will write.
  function SlotOfEnqueue(q: Queue, k: nat): nat
    requires k > 0
  {
    Wrapped(q.tail + k - 1)
  }

  // One operation, when it is not the k-th successful enqueue.
  lemma SlotKeptByOne(q: Queue, op: Op, k: nat)
    requires WellFormed(q) && 0 < k <= QUEUE_SIZE && (op.Enqueue? && q.freeSpace > 0 ==> k > 1)
    ensures var q', slot := Apply(q, op), SlotOfEnqueue(q, k);
      && WellFormed(q') && slot < QUEUE_SIZE
      && q'.buffer[slot] == q.buffer[slot]
      && q'.addedCount == q.addedCount + (if op.Enqueue? && q.freeSpace > 0 then 1 else 0)
      && SlotOfEnqueue(q', if op.Enqueue? && q.freeSpace > 0 then k - 1 else k) == slot
  {
    ApplyKeepsForm(q, op);
    WrappedIsRemainder(q.tail + 1);
  }

  // Fewer than k successful enqueues leave that slot alone and come closer to it by their number.
  lemma {:induction false} SlotKept(q: Queue, ops: seq<Op>, k: nat)
    requires WellFormed(q) && 0 < k <= QUEUE_SIZE
    requires ApplyAll(q, ops).addedCount - q.addedCount < k
    ensures var q' := ApplyAll(q, ops);
      && q'.addedCount >= q.addedCount
      && q'.buffer[SlotOfEnqueue(q, k)] == q.buffer[SlotOfEnqueue(q, k)]
      && SlotOfEnqueue(q', k - (q'.addedCount - q.addedCount)) == SlotOfEnqueue(q, k)
    decreases |ops|
  {
    if ops != [] {
      var q1 := Apply(q, ops[0]);
      ApplyKeepsForm(q, ops[0]);
      AddsOnly(q1, ops[1..]);
      SlotKeptByOne(q, ops[0], k);
      SlotKept(q1, ops[1..], if ops[0].Enqueue? && q.freeSpace > 0 then k - 1 else k);
    }
  }

  lemma {:induction false} AddsOnly(q: Queue, ops: seq<Op>)
    requires WellFormed(q)
    ensures ApplyAll(q, ops).addedCount >= q.addedCount
    decreases |ops|
  {
    if ops != [] {
      ApplyKeepsForm(q, ops[0]);
      AddsOnly(Apply(q, ops[0]), ops[1..]);
    }
  }

  // How long the pointer dequeue returns stays good. If it leaves freeSpace at f, its slot keeps
  // the message through the next f - 1 successful enqueues, whatever dequeues happen between them,
  // and the f-th one overwrites exactly this slot.
  lemma {:induction false} SlotLifetime(q: Queue, ops: seq<Op>, msg: Message)
    requires WellFormed(q) && q.count > 0
    ensures var q1 := Dequeued(q); var q2 := ApplyAll(q1, ops);
      && q2.addedCount >= q1.addedCount
      && (q2.addedCount - q1.addedCount < q1.freeSpace ==> q2.buffer[q.head] == q.buffer[q.head] == Contents(q)[0])
      && (q2.addedCount - q1.addedCount == q1.freeSpace - 1 && q2.freeSpace > 0 ==>
            q2.tail == q.head && Enqueued(q2, msg).buffer[q.head] == msg)
  {
    var q1 := Dequeued(q);
    DequeueTakesOldest(q);
    WrappedIsRemainder(q.head + 1);
    AddsOnly(q1, ops);
    assert SlotOfEnqueue(q1, q1.freeSpace) == q.head;
    assert Contents(q)[0] == q.buffer[q.head];
    if ApplyAll(q1, ops).addedCount - q1.addedCount < q1.freeSpace {
      SlotKept(q1, ops, q1.freeSpace);
    }
  }

  datatype Slot = NoSlot | At(index: nat)

  // message_queue and its operations in place.
  class MessageQueue {
    const buffer: array<Message>
    var head: nat
    var tail: nat
    var count: nat
    var addedCount: nat
    var removedCount: nat
    var freeSpace: nat

    ghost function Value(): Queue
      reads this, buffer
    {
      Queue(buffer[..], head, tail, count, addedCount, removedCount, freeSpace)
    }

    // queue_init
    constructor (zero: Message)
      ensures WellFormed(Value()) && Contents(Value()) == [] && addedCount == 0 && fresh(buffer)
      ensures forall i :: 0 <= i < QUEUE_SIZE ==> buffer[i] == zero
    {
      head, tail, count, addedCount, removedCount := 0, 0, 0, 0, 0;
      freeSpace := QUEUE_SIZE;
      buffer := new Message[QUEUE_SIZE](i => zero);
    }

    method Enqueue(msg: Message)
      requires WellFormed(Value())
      modifies this, buffer
      ensures Value() == Enqueued(old(Value()), msg)
      ensures WellFormed(Value())
      ensures Contents(Value()) == if old(count) == QUEUE_SIZE then old(Contents(Value())) else old(Contents(Value())) + [msg]
    {
      EnqueueAppends(Value(), msg);
      if freeSpace == 0 {
        return;
      }
      buffer[tail] := msg;
      tail := (tail + 1) % QUEUE_SIZE;
      count := count + 1;
      addedCount := addedCount + 1;
      freeSpace := freeSpace - 1;
    }

    // The result stands for the pointer: the slot the message is still in.
    method Dequeue() returns (slot: Slot)
      requires WellFormed(Value())
      modifies this
      ensures Value() == Dequeued(old(Value()))
      ensures WellFormed(Value())
      ensures slot == if old(count) == 0 then NoSlot else At(old(head))
      ensures old(count) > 0 ==> old(Contents(Value())) == [buffer[old(head)]] + Contents(Value())
    {
      DequeueTakesOldest(Value());
      if count == 0 {
        return NoSlot;
      }
      slot := At(head);
      head := (head + 1) % QUEUE_SIZE;
      count := count - 1;
      removedCount := removedCount + 1;
      freeSpace := freeSpace + 1;
    }
  }
}

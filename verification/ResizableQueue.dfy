/** The resizable ring of lab5 (queue.c of 5.1 and 5.2, which differ in how far reduce goes). */
module ResizableQueue {

  const QUEUE_BASE_SIZE: nat := 10

  // message_queue_element_t, whose fields the queue never looks at.
  datatype Element = Element(kind: nat, hash: nat, size: nat, data: seq<nat>)

  // A message_queue_element_t*.
  datatype Slot = Null | Holds(element: Element)

  // The fields of message_queue_t as a value; the slots are as many as max_len says.
  datatype Ring = Ring(head: nat, tail: nat, len: nat, slots: seq<Slot>)

  // The next index round the ring.
  function After(i: nat, n: nat): nat
    requires n > 0
  {
    (i + 1) % n
  }

  lemma AfterWraps(i: nat, n: nat)
    requires i < n
    ensures After(i, n) == if i + 1 == n then 0 else i + 1
  {
    if i + 1 < n {
      SmallRemainder(i + 1, n);
    }
  }

  lemma SmallRemainder(i: nat, n: nat)
    requires i < n
    ensures i % n == i
  {
  }

  // Every index the operation uses exists.
  predicate PushSafe(q: Ring) {
    q.len == 0 && q.slots != [] ==> q.tail < |q.slots|
  }

  predicate PopSafe(q: Ring) {
    q.len > 0 ==> q.head < |q.slots|
  }

  predicate ExpandSafe(q: Ring) {
    q.tail < q.head ==> q.head <= |q.slots|
  }

  predicate ReduceSafe(q: Ring) {
    q.len <= |q.slots| && (q.head > q.tail ==> q.head <= |q.slots|)
  }

  predicate InBounds(q: Ring) {
    q.head < |q.slots| && q.tail < |q.slots| && q.len <= |q.slots|
  }

  // queue_push, whose tail stays where it is when the queue is empty
  function Pushed(q: Ring, message: Slot): Ring
    requires PushSafe(q)
  {
    if message.Null? || q.len >= |q.slots| then q
    else
      var tail := if q.len != 0 then After(q.tail, |q.slots|) else q.tail;
      Ring(q.head, tail, q.len + 1, q.slots[tail := message])
  }

  // queue_pop
  function Popped(q: Ring): Ring
    requires PopSafe(q)
  {
    if q.len == 0 then q
    else Ring(After(q.head, |q.slots|), q.tail, q.len - 1, q.slots[q.head := Null])
  }

  function PoppedMessage(q: Ring): Slot
    requires PopSafe(q)
  {
    if q.len == 0 then Null else q.slots[q.head]
  }

  // The slots with a new empty one at index `at`.
  function WithSlot(slots: seq<Slot>, at: nat): seq<Slot>
    requires at <= |slots|
  {
    seq(|slots| + 1, i requires 0 <= i <= |slots| => if i < at then slots[i] else if i == at then Null else slots[i - 1])
  }

  // The slots without the one at index `at`.
  function WithoutSlot(slots: seq<Slot>, at: nat): seq<Slot>
    requires at < |slots|
  {
    seq(|slots| - 1, i requires 0 <= i < |slots| - 1 => if i < at then slots[i] else slots[i + 1])
  }

  // queue_expand
  function Expanded(q: Ring): Ring
    requires ExpandSafe(q)
  {
    if q.tail < q.head then Ring(q.head + 1, q.tail, q.len, WithSlot(q.slots, q.head))
    else Ring(q.head, q.tail, q.len, WithSlot(q.slots, |q.slots|))
  }

  // queue_reduce gives up when the queue is full, or has the least capacity (1 in 5.1, 0 in 5.2).
  predicate Shrinks(q: Ring, least: nat) {
    q.len < |q.slots| && |q.slots| != least
  }

  function Reduced(q: Ring, least: nat): Ring
    requires ReduceSafe(q)
  {
    if !Shrinks(q, least) then q
    else if q.head > q.tail then Ring(q.head - 1, q.tail, q.len, WithoutSlot(q.slots, q.head - 1))
    else Ring(q.head, q.tail, q.len, WithoutSlot(q.slots, |q.slots| - 1))
  }

  // The state of a queue: the messages are the `len` ones from head on, and the next push goes
  // behind them.
  predicate Aligned(q: Ring) {
    && InBounds(q)
    && q.tail == if q.len == 0 then q.head else At(q, q.len - 1)
  }

  // Where the i-th message is: (head + i) % max_len.
  function At(q: Ring, i: nat): nat {
    if q.head + i < |q.slots| then q.head + i else q.head + i - |q.slots|
  }

  // The messages of an aligned queue, oldest first.
  function Queued(q: Ring): (s: seq<Slot>)
    requires InBounds(q)
    ensures |s| == q.len
  {
    seq(q.len, i requires 0 <= i < q.len => q.slots[At(q, i)])
  }

  lemma PushAppends(q: Ring, message: Slot)
    requires Aligned(q) && q.len < |q.slots| && message != Null
    ensures Aligned(Pushed(q, message))
    ensures Queued(Pushed(q, message)) == Queued(q) + [message]
  {
    AfterWraps(q.tail, |q.slots|);
    var q' := Pushed(q, message);
    forall i | 0 <= i < q'.len ensures Queued(q')[i] == (Queued(q) + [message])[i] {
      assert At(q', i) == At(q, i);
    }
  }

  // The pop that empties the queue leaves tail behind, unless there is one slot only.
  lemma PopTakesOldest(q: Ring)
    requires Aligned(q)
    ensures InBounds(Popped(q)) && (Aligned(Popped(q)) <==> q.len != 1 || |q.slots| == 1)
    ensures q.len >= 1 ==> Queued(q) == [PoppedMessage(q)] + Queued(Popped(q))
  {
    AfterWraps(q.head, |q.slots|);
    var q' := Popped(q);
    if q.len >= 1 {
      forall i | 0 <= i < q.len ensures Queued(q)[i] == ([PoppedMessage(q)] + Queued(q'))[i] {
        if i > 0 {
          assert At(q', i - 1) == At(q, i) != q.head;
        }
      }
    }
  }

  lemma ExpandKeepsMessages(q: Ring)
    requires Aligned(q)
    ensures Aligned(Expanded(q)) && Queued(Expanded(q)) == Queued(q) && |Expanded(q).slots| == |q.slots| + 1
  {
    var q' := Expanded(q);
    forall i | 0 <= i < q.len ensures Queued(q')[i] == Queued(q)[i] {
      assert At(q', i) == if q.tail < q.head && At(q, i) >= q.head then At(q, i) + 1 else At(q, i);
    }
  }

  // A reduce that shrinks the ring keeps the messages exactly if the dropped slot is not in use.
  lemma ReduceKeepsMessages(q: Ring, least: nat)
    requires Aligned(q) && Shrinks(q, least)
    ensures |Reduced(q, least).slots| == |q.slots| - 1
    ensures q.head > q.tail || q.tail < |q.slots| - 1 <==>
            Aligned(Reduced(q, least)) && Queued(Reduced(q, least)) == Queued(q)
    ensures !(q.head > q.tail || q.tail < |q.slots| - 1) ==> Reduced(q, least).slots == q.slots[..q.tail]
  {
    var q' := Reduced(q, least);
    if q.head > q.tail || q.tail < |q.slots| - 1 {
      forall i | 0 <= i < q.len ensures Queued(q')[i] == Queued(q)[i] {
        assert At(q', i) == if q.head > q.tail && At(q, i) >= q.head then At(q, i) - 1 else At(q, i);
      }
    }
  }

  // A bounded queue, its capacity, and what has been popped from it.
  datatype Bounded = Bounded(items: seq<Slot>, capacity: nat, out: seq<Slot>)

  datatype Command = PushOf(element: Element) | PopOne | Expand | Reduce

  // What the commands mean.
  function Meant(b: Bounded, c: Command, least: nat): Bounded {
    match c
    case PushOf(e) => if |b.items| < b.capacity then b.(items := b.items + [Holds(e)]) else b
    case PopOne => if b.items == [] then b else b.(items := b.items[1..], out := b.out + [b.items[0]])
    case Expand => b.(capacity := b.capacity + 1)
    case Reduce => if |b.items| < b.capacity && b.capacity != least then b.(capacity := b.capacity - 1) else b
  }

  // What they do.
  function Done(q: Ring, c: Command, least: nat): Ring
    requires InBounds(q)
  {
    match c
    case PushOf(e) => Pushed(q, Holds(e))
    case PopOne => Popped(q)
    case Expand => Expanded(q)
    case Reduce => Reduced(q, least)
  }

  function OutOf(q: Ring, c: Command): seq<Slot>
    requires InBounds(q)
  {
    if c.PopOne? && q.len > 0 then [PoppedMessage(q)] else []
  }

  function AsBounded(q: Ring, out: seq<Slot>): Bounded
    requires InBounds(q)
  {
    Bounded(Queued(q), |q.slots|, out)
  }

  predicate KeepsOrder(q: Ring, c: Command, least: nat) {
    && (c.PopOne? ==> q.len != 1 || |q.slots| == 1)
    && (c.Reduce? ==> !Shrinks(q, least) || q.head > q.tail || q.tail < |q.slots| - 1)
  }

  // One command on a queue leaves the queue it should exactly under this condition.
  lemma MeantIff(q: Ring, c: Command, least: nat, out: seq<Slot>)
    requires Aligned(q)
    ensures KeepsOrder(q, c, least) <==> Aligned(Done(q, c, least))
    ensures KeepsOrder(q, c, least) ==> AsBounded(Done(q, c, least), out + OutOf(q, c)) == Meant(AsBounded(q, out), c, least)
  {
    match c
    case PushOf(e) =>
      if q.len < |q.slots| {
        PushAppends(q, Holds(e));
      }
    case PopOne =>
      PopTakesOldest(q);
    case Expand =>
      ExpandKeepsMessages(q);
    case Reduce =>
      if Shrinks(q, least) {
        ReduceKeepsMessages(q, least);
      }
  }

  function AllMeant(b: Bounded, cs: seq<Command>, least: nat): Bounded
    decreases |cs|
  {
    if cs == [] then b else AllMeant(Meant(b, cs[0], least), cs[1..], least)
  }

  // The commands keep to the condition, one after the other, and end in q' and out'.
  predicate AllDone(q: Ring, out: seq<Slot>, cs: seq<Command>, least: nat, q': Ring, out': seq<Slot>)
    requires InBounds(q)
    decreases |cs|
  {
    if cs == [] then q' == q && out' == out
    else
      var q1 := Done(q, cs[0], least);
      KeepsOrder(q, cs[0], least) && InBounds(q1) && AllDone(q1, out + OutOf(q, cs[0]), cs[1..], least, q', out')
  }

  // Any sequence of such pushes, pops, expands and reduces does what it does to a bounded queue.
  lemma {:induction false} ActsAsBoundedQueue(q: Ring, out: seq<Slot>, cs: seq<Command>, least: nat, q': Ring, out': seq<Slot>)
    requires Aligned(q) && AllDone(q, out, cs, least, q', out')
    ensures Aligned(q') && AsBounded(q', out') == AllMeant(AsBounded(q, out), cs, least)
    decreases |cs|
  {
    if cs != [] {
      MeantIff(q, cs[0], least, out);
      ActsAsBoundedQueue(Done(q, cs[0], least), out + OutOf(q, cs[0]), cs[1..], least, q', out');
    }
  }

  // Reduce undoes expand, in any state whose indices exist.
  lemma ReduceUndoesExpand(q: Ring, least: nat)
    requires InBounds(q) && least <= 1
    ensures Reduced(Expanded(q), least) == q
  {
  }

  // Which operations leave indices that exist: all but a reduce that drops the slot of tail.
  lemma BoundsKept(q: Ring, message: Slot, least: nat)
    requires InBounds(q)
    ensures InBounds(Pushed(q, message)) && InBounds(Popped(q)) && InBounds(Expanded(q))
    ensures InBounds(Reduced(q, least)) <==> !Shrinks(q, least) || q.head > q.tail || q.tail < |q.slots| - 1
  {
    AfterWraps(q.head, |q.slots|);
    AfterWraps(q.tail, |q.slots|);
  }

  // len and max_len, all that the threads' waiting depends on.
  datatype Size = Size(len: nat, maxLen: nat)

  function SizeOf(q: Ring): Size {
    Size(q.len, |q.slots|)
  }

  function PushedSize(z: Size): Size {
    if z.len >= z.maxLen then z else z.(len := z.len + 1)
  }

  function PoppedSize(z: Size): Size {
    if z.len == 0 then z else z.(len := z.len - 1)
  }

  function ExpandedSize(z: Size): Size {
    z.(maxLen := z.maxLen + 1)
  }

  predicate SizeShrinks(z: Size, least: nat) {
    z.len < z.maxLen && z.maxLen != least
  }

  function ReducedSize(z: Size, least: nat): Size {
    if SizeShrinks(z, least) then z.(maxLen := z.maxLen - 1) else z
  }

  // What the operations do to them does not depend on head, tail or the slots.
  lemma SizesOnly(q: Ring, message: Slot, least: nat)
    requires PushSafe(q) && PopSafe(q) && ExpandSafe(q) && ReduceSafe(q) && message != Null
    ensures SizeOf(Pushed(q, message)) == PushedSize(SizeOf(q))
    ensures SizeOf(Popped(q)) == PoppedSize(SizeOf(q))
    ensures SizeOf(Expanded(q)) == ExpandedSize(SizeOf(q))
    ensures SizeOf(Reduced(q, least)) == ReducedSize(SizeOf(q), least)
  {
  }

  // How far head is ahead of where an aligned queue would have it (0 <= skew < max_len).
  function Skew(q: Ring): int {
    var d := q.head - q.tail + if q.len == 0 then 0 else q.len - 1;
    if d < 0 then d + |q.slots| else if d >= |q.slots| then d - |q.slots| else d
  }

  lemma AlignedMeansNoSkew(q: Ring)
    requires InBounds(q)
    ensures Aligned(q) <==> Skew(q) == 0
  {
  }

  // The slot that a resize adds or drops lies between the slot where head should be and head.
  predicate ResizeInGap(q: Ring) {
    var d := q.head - q.tail + if q.len == 0 then 0 else q.len - 1;
    if q.tail < q.head then d < |q.slots| else d < 0
  }

  // What the resizes do to the skew, aligned or not: they change it by the slot in the gap.
  lemma ResizeSkews(q: Ring, least: nat)
    requires InBounds(q)
    ensures Skew(Expanded(q)) == Skew(q) + if ResizeInGap(q) then 1 else 0
    ensures Shrinks(q, least) && InBounds(Reduced(q, least)) ==>
              Skew(Reduced(q, least)) == Skew(q) - if ResizeInGap(q) then 1 else 0
    ensures Aligned(q) ==> !ResizeInGap(q)
  {
  }

  // Resizes can spoil the order of an emptied ring further, or repair it.
  lemma ResizesMoveSkew(e: Element)
    ensures var q := Popped(Pushed(Made(3), Holds(e)));
      Skew(q) == 1 && Skew(Expanded(q)) == 2 && Skew(Reduced(q, 1)) == 0 && Aligned(Reduced(q, 1))
  {
    AfterWraps(0, 3);
  }

  datatype Op = Push(element: Element) | Pop

  function Apply(q: Ring, op: Op): Ring
    requires InBounds(q)
  {
    match op
    case Push(e) => Pushed(q, Holds(e))
    case Pop => Popped(q)
  }

  function ApplyAll(q: Ring, ops: seq<Op>): (r: Ring)
    requires InBounds(q)
    ensures InBounds(r) && |r.slots| == |q.slots|
    decreases |ops|
  {
    if ops == [] then q
    else
      BoundsKept(q, if ops[0].Push? then Holds(ops[0].element) else Null, 0);
      ApplyAll(Apply(q, ops[0]), ops[1..])
  }

  predicate Empties(q: Ring, op: Op) {
    op.Pop? && q.len == 1
  }

  // The pops that took the last message.
  function EmptyingPops(q: Ring, ops: seq<Op>): nat
    requires InBounds(q)
    decreases |ops|
  {
    if ops == [] then 0
    else
      BoundsKept(q, if ops[0].Push? then Holds(ops[0].element) else Null, 0);
      EmptyingPops(Apply(q, ops[0]), ops[1..]) + if Empties(q, ops[0]) then 1 else 0
  }

  // An emptying pop moves head one further ahead of tail; nothing else changes the skew.
  lemma SkewStep(q: Ring, op: Op)
    requires InBounds(q)
    ensures InBounds(Apply(q, op)) && |Apply(q, op).slots| == |q.slots|
    ensures Skew(Apply(q, op)) == if Empties(q, op) then (if Skew(q) + 1 == |q.slots| then 0 else Skew(q) + 1) else Skew(q)
  {
    if op.Push? {
      PushSkews(q, op.element);
    } else {
      PopSkews(q);
    }
  }

  lemma PushSkews(q: Ring, e: Element)
    requires InBounds(q)
    ensures InBounds(Pushed(q, Holds(e))) && Skew(Pushed(q, Holds(e))) == Skew(q)
  {
    AfterWraps(q.tail, |q.slots|);
  }

  lemma PopSkews(q: Ring)
    requires InBounds(q)
    ensures InBounds(Popped(q))
    ensures Skew(Popped(q)) == if q.len == 1 then (if Skew(q) + 1 == |q.slots| then 0 else Skew(q) + 1) else Skew(q)
  {
    AfterWraps(q.head, |q.slots|);
  }

  lemma {:induction false} SkewCountsEmptyings(q: Ring, ops: seq<Op>)
    requires InBounds(q)
    ensures Skew(ApplyAll(q, ops)) == (Skew(q) + EmptyingPops(q, ops)) % |q.slots|
    decreases |ops|
  {
    var n, k := |q.slots|, EmptyingPops(q, ops);
    if ops == [] {
      SmallRemainder(Skew(q), n);
    } else {
      SkewStep(q, ops[0]);
      SkewCountsEmptyings(Apply(q, ops[0]), ops[1..]);
      if Empties(q, ops[0]) && Skew(q) + 1 == n {
        LessByN(k - 1, n);
      }
    }
  }

  lemma LessByN(k: nat, n: nat)
    requires n > 0
    ensures (k + n) % n == k % n
  {
    var r := k % n;
    assert k == n * (k / n) + r;
    assert k + n == n * (k / n + 1) + r;
    SameRemainder(k + n, n, k / n + 1, r);
  }

  lemma {:induction false} Multiples(n: nat, a: nat, b: nat)
    ensures a < b ==> n * a + n <= n * b
  {
    if a < b {
      if a + 1 < b {
        Multiples(n, a, b - 1);
      }
      assert n * b == n * (b - 1) + n;
    }
  }

  lemma SameRemainder(x: nat, n: nat, d: nat, r: nat)
    requires n > 0 && x == n * d + r && r < n
    ensures x % n == r
  {
    Multiples(n, d, x / n);
    Multiples(n, x / n, d);
  }

  // At one capacity, from the freshly made queue: the state is that of a queue exactly while the
  // number of pops that emptied it is a multiple of the capacity; and a message pushed onto the
  // empty queue goes where the next pop looks exactly then.
  lemma {:induction false} FifoUntilEmptied(ops: seq<Op>, capacity: nat, e: Element)
    requires capacity > 0
    ensures var q0 := Made(capacity); var q, k := ApplyAll(q0, ops), EmptyingPops(q0, ops);
      && (Aligned(q) <==> k % capacity == 0)
      && (q.len == 0 ==> (Pushed(q, Holds(e)).head == Pushed(q, Holds(e)).tail <==> k % capacity == 0))
      && (q.len == 0 && k % capacity == 0 ==> PoppedMessage(Pushed(q, Holds(e))) == Holds(e))
  {
    var q0 := Made(capacity);
    SkewCountsEmptyings(q0, ops);
    assert Skew(q0) == 0;
  }

  // Of the `len` messages pushed last, where the first was put: each push onto a queue that is not
  // empty goes one slot on.
  function Oldest(q: Ring): int {
    if q.tail + 1 >= q.len then q.tail + 1 - q.len else q.tail + 1 - q.len + |q.slots|
  }

  // Where the i-th of them was put.
  function Home(q: Ring, i: nat): int {
    if Oldest(q) + i < |q.slots| then Oldest(q) + i else Oldest(q) + i - |q.slots|
  }

  // Head is Skew(q) places past the oldest message.
  lemma HeadPastOldest(q: Ring)
    requires InBounds(q) && q.len >= 1
    ensures 0 <= Skew(q) < |q.slots| && q.head == Home(q, Skew(q))
    ensures q.head == Oldest(q) <==> Skew(q) == 0
  {
  }

  // The contents a bounded queue would have after the operations, oldest first.
  function Awaiting(items: seq<Element>, capacity: nat, ops: seq<Op>): seq<Element>
    decreases |ops|
  {
    if ops == [] then items
    else Awaiting(AwaitingOne(items, capacity, ops[0]), capacity, ops[1..])
  }

  function AwaitingOne(items: seq<Element>, capacity: nat, op: Op): seq<Element> {
    match op
    case Push(e) => if |items| < capacity then items + [e] else items
    case Pop => if items == [] then [] else items[1..]
  }

  // No message is pushed twice, or is one of `past`.
  predicate AllNew(ops: seq<Op>, past: set<Element>)
    decreases |ops|
  {
    ops == [] || ((ops[0].Push? ==> ops[0].element !in past) && AllNew(ops[1..], Past(past, ops[0])))
  }

  function Past(past: set<Element>, op: Op): set<Element> {
    if op.Push? then past + {op.element} else past
  }

  // A message that awaits is in the slot it was put, if anywhere; and it is there without skew.
  ghost predicate Placed(q: Ring, items: seq<Element>, past: set<Element>) {
    && InBounds(q) && |items| == q.len
    && (forall i :: 0 <= i < |items| ==> items[i] in past)
    && (forall x :: 0 <= x < |q.slots| && q.slots[x].Holds? ==> q.slots[x].element in past)
    && (forall x, i :: 0 <= x < |q.slots| && 0 <= i < |items| && q.slots[x] == Holds(items[i]) ==> x == Home(q, i))
    && (Skew(q) == 0 ==> forall i :: 0 <= i < |items| ==> q.slots[Home(q, i)] == Holds(items[i]))
  }

  lemma PushPlaces(q: Ring, items: seq<Element>, past: set<Element>, e: Element)
    requires Placed(q, items, past) && e !in past
    ensures Placed(Pushed(q, Holds(e)), AwaitingOne(items, |q.slots|, Push(e)), past + {e})
  {
    if q.len < |q.slots| {
      PushHome(q, e);
      SkewStep(q, Push(e));
    }
  }

  // A push puts the message behind the others and leaves them where they are.
  lemma PushHome(q: Ring, e: Element)
    requires InBounds(q) && q.len < |q.slots|
    ensures var q' := Pushed(q, Holds(e));
      && InBounds(q') && Home(q', q.len) == q'.tail
      && forall i :: 0 <= i < q.len ==> Home(q', i) == Home(q, i) != q'.tail
  {
    AfterWraps(q.tail, |q.slots|);
  }

  lemma PopPlaces(q: Ring, items: seq<Element>, past: set<Element>)
    requires Placed(q, items, past)
    ensures Placed(Popped(q), AwaitingOne(items, |q.slots|, Pop), past)
  {
    SkewStep(q, Pop);
    if q.len > 1 {
      var q' := Popped(q);
      HeadPastOldest(q);
      forall i: nat | i < q.len - 1 ensures Home(q', i) == Home(q, i + 1) != Oldest(q) {
      }
    }
  }

  lemma {:induction false} StaysPlaced(q: Ring, items: seq<Element>, past: set<Element>, ops: seq<Op>) returns (past': set<Element>)
    requires Placed(q, items, past) && AllNew(ops, past)
    ensures Placed(ApplyAll(q, ops), Awaiting(items, |q.slots|, ops), past')
    decreases |ops|
  {
    past' := past;
    if ops != [] {
      if ops[0].Push? {
        PushPlaces(q, items, past, ops[0].element);
      } else {
        PopPlaces(q, items, past);
      }
      past' := StaysPlaced(Apply(q, ops[0]), AwaitingOne(items, |q.slots|, ops[0]), Past(past, ops[0]), ops[1..]);
    }
  }

  // At one capacity, from the freshly made queue, with messages that can be told apart: the next pop
  // returns the oldest message exactly when the number of pops that emptied the queue so far is a
  // multiple of the capacity.
  lemma {:induction false} PopReturnsOldestIff(ops: seq<Op>, capacity: nat)
    requires capacity > 0 && AllNew(ops, {})
    ensures var q, items := ApplyAll(Made(capacity), ops), Awaiting([], capacity, ops);
      && |items| == q.len
      && (q.len >= 1 ==> (PoppedMessage(q) == Holds(items[0]) <==> EmptyingPops(Made(capacity), ops) % capacity == 0))
  {
    var past := StaysPlaced(Made(capacity), [], {}, ops);
    SkewCountsEmptyings(Made(capacity), ops);
    PopWhenPlaced(ApplyAll(Made(capacity), ops), Awaiting([], capacity, ops), past);
  }

  lemma PopWhenPlaced(q: Ring, items: seq<Element>, past: set<Element>)
    requires Placed(q, items, past)
    ensures |items| == q.len && (q.len >= 1 ==> (PoppedMessage(q) == Holds(items[0]) <==> Skew(q) == 0))
  {
    if q.len >= 1 {
      HeadPastOldest(q);
    }
  }

  // The first pop that empties the queue: at any capacity above 1 the message pushed next is not
  // what the pop after it returns.
  lemma SecondMessageLost(capacity: nat, a: Element, b: Element)
    requires capacity > 1
    ensures var q := ApplyAll(Made(capacity), [Push(a), Pop, Push(b)]);
      q.len == 1 && PoppedMessage(q) == Null
  {
    var q1 := Pushed(Made(capacity), Holds(a));
    var q2 := Popped(q1);
    AfterWraps(0, capacity);
    var ops := [Push(a), Pop, Push(b)];
    assert ops[1..] == [Pop, Push(b)] && ops[1..][1..] == [Push(b)] && ops[1..][1..][1..] == [];
    assert ApplyAll(q2, [Push(b)]) == Pushed(q2, Holds(b));
    assert ApplyAll(q1, [Pop, Push(b)]) == ApplyAll(q2, [Push(b)]);
  }

  function Pushes(es: seq<Element>): seq<Op> {
    seq(|es|, i requires 0 <= i < |es| => Push(es[i]))
  }

  lemma {:induction false} FillsUp(q: Ring, es: seq<Element>)
    requires Aligned(q) && q.len + |es| <= |q.slots|
    ensures var r := ApplyAll(q, Pushes(es));
      && Aligned(r) && r.head == q.head && r.len == q.len + |es|
      && Queued(r) == Queued(q) + seq(|es|, i requires 0 <= i < |es| => Holds(es[i]))
    decreases |es|
  {
    if es != [] {
      PushAppends(q, Holds(es[0]));
      assert Pushes(es)[1..] == Pushes(es[1..]);
      FillsUp(Pushed(q, Holds(es[0])), es[1..]);
    }
  }

  // A reduce that fails: fill the queue, pop one message, reduce. The newest message is gone, and
  // tail is out of bounds.
  lemma ReduceLosesNewest(es: seq<Element>, least: nat)
    requires |es| > 1 && least <= 1 && es[|es| - 1] !in es[..|es| - 1]
    ensures var q := Popped(ApplyAll(Made(|es|), Pushes(es))); var r := Reduced(q, least);
      && Aligned(q) && Holds(es[|es| - 1]) in q.slots
      && r.tail >= |r.slots| && Holds(es[|es| - 1]) !in r.slots
  {
    var n := |es|;
    FillsUp(Made(n), es);
    var full := ApplyAll(Made(n), Pushes(es));
    forall i | 0 <= i < n ensures full.slots[i] == Holds(es[i]) {
      assert Queued(full)[i] == full.slots[At(full, i)];
    }
    PopTakesOldest(full);
    AfterWraps(0, n);
    assert Popped(full).slots[n - 1] == Holds(es[n - 1]);
  }

  // queue_init, with QUEUE_BASE_SIZE as the capacity.
  function Made(capacity: nat): Ring {
    Ring(0, 0, 0, seq(capacity, i => Null))
  }

  lemma SlotsAre(a: array<Slot>, slots: seq<Slot>)
    requires a.Length == |slots| && forall i :: 0 <= i < |slots| ==> a[i] == slots[i]
    ensures a[..] == slots
  {
  }

  // message_queue_t and its operations in place.
  class MessageQueue {
    const least: nat
    var head: nat
    var tail: nat
    var len: nat
    var maxLen: nat
    var messages: array<Slot>

    // The array has the length max_len says.
    ghost predicate Valid()
      reads this
    {
      messages.Length == maxLen
    }

    ghost function Value(): Ring
      reads this, messages
    {
      Ring(head, tail, len, messages[..])
    }

    // queue_init
    constructor (least: nat)
      ensures Valid() && fresh(messages) && this.least == least
      ensures Value() == Made(QUEUE_BASE_SIZE)
    {
      this.least := least;
      head, tail, len := 0, 0, 0;
      maxLen := QUEUE_BASE_SIZE;
      messages := new Slot[QUEUE_BASE_SIZE](i => Null);
    }

    // realloc to n slots; slots gained hold anything, here Null.
    method Resize(n: nat, ghost slots: seq<Slot>)
      requires Valid() && |slots| <= messages.Length && forall i :: 0 <= i < |slots| ==> messages[i] == slots[i]
      modifies this`messages, this`maxLen
      ensures Valid() && maxLen == n && fresh(messages)
      ensures forall i :: 0 <= i < n && i < |slots| ==> messages[i] == slots[i]
    {
      var resized := new Slot[n](i => Null);
      forall i | 0 <= i < n && i < messages.Length {
        resized[i] := messages[i];
      }
      messages := resized;
      maxLen := n;
    }

    // The loop of queue_expand: the slots from head on move up by one.
    method ShiftUp(ghost slots: seq<Slot>)
      requires Valid() && head < maxLen == |slots| + 1 && forall j :: 0 <= j < |slots| ==> messages[j] == slots[j]
      modifies messages
      ensures forall j :: 0 <= j < maxLen && j != head ==> messages[j] == WithSlot(slots, head)[j]
    {
      var i := maxLen - 1;
      while i > head
        invariant head <= i < maxLen
        invariant forall j :: 0 <= j < maxLen && j != i ==> messages[j] == slots[if i < j then j - 1 else j]
      {
        messages[i] := messages[i - 1];
        i := i - 1;
      }
    }

    method Expand()
      requires Valid() && ExpandSafe(Value())
      modifies this, messages
      ensures Valid() && fresh(messages)
      ensures Value() == Expanded(old(Value()))
    {
      ghost var slots := messages[..];
      Resize(maxLen + 1, slots);
      if tail < head {
        ghost var grown := WithSlot(slots, head);
        ShiftUp(slots);
        messages[head] := Null;
        SlotsAre(messages, grown);
        head := head + 1;
      } else {
        ghost var grown := WithSlot(slots, |slots|);
        messages[maxLen - 1] := Null;
        SlotsAre(messages, grown);
      }
    }

    // The loop of queue_reduce: the slots from head on move down by one.
    method ShiftDown(ghost slots: seq<Slot>)
      requires Valid() && 0 < head <= maxLen == |slots| && forall j :: 0 <= j < |slots| ==> messages[j] == slots[j]
      modifies messages
      ensures forall j :: 0 <= j < maxLen - 1 ==> messages[j] == WithoutSlot(slots, head - 1)[j]
    {
      var i := head;
      while i < maxLen
        invariant head <= i <= maxLen
        invariant forall j :: 0 <= j < maxLen ==> messages[j] == slots[if head - 1 <= j < i - 1 then j + 1 else j]
      {
        messages[i - 1] := messages[i];
        i := i + 1;
      }
    }

    method Reduce()
      requires Valid() && ReduceSafe(Value())
      modifies this, messages
      ensures Valid()
      ensures messages == old(messages) || fresh(messages)
      ensures Value() == Reduced(old(Value()), least)
    {
      if len == maxLen {
        return;
      }
      if maxLen == least {
        return;
      }
      ghost var slots := messages[..];
      if head > tail {
        ghost var kept := WithoutSlot(slots, head - 1);
        ShiftDown(slots);
        messages[maxLen - 1] := Null;
        head := head - 1;
        Resize(maxLen - 1, kept);
        SlotsAre(messages, kept);
      } else {
        ghost var kept := WithoutSlot(slots, maxLen - 1);
        Resize(maxLen - 1, slots);
        SlotsAre(messages, kept);
      }
    }

    method Push(message: Slot)
      requires Valid() && PushSafe(Value())
      modifies this, messages
      ensures Valid() && messages == old(messages)
      ensures Value() == Pushed(old(Value()), message)
    {
      if message.Null? {
        return;
      }
      if len >= maxLen {
        return;
      }
      if len != 0 {
        tail := (tail + 1) % maxLen;
      }
      messages[tail] := message;
      len := len + 1;
    }

    method Pop() returns (data: Slot)
      requires Valid() && PopSafe(Value())
      modifies this, messages
      ensures Valid() && messages == old(messages)
      ensures Value() == Popped(old(Value())) && data == PoppedMessage(old(Value()))
    {
      if len == 0 {
        return Null;
      }
      data := messages[head];
      messages[head] := Null;
      head := (head + 1) % maxLen;
      len := len - 1;
    }
  }
}

/** What the pops of the resizable ring of lab5 return in any state, aligned as a queue or not. */
module RingHistory {
  import opened ResizableQueue

  // Slots come and go and move when the capacity changes, so each is a cell with a number of its own.
  datatype Access = PushedInto(cell: nat, element: Element) | PoppedFrom(cell: nat)

  // The cells in slot order, how many there have been, all accesses to them, and what pops returned.
  datatype History = History(cells: seq<nat>, made: nat, log: seq<Access>, out: seq<Slot>)

  // The last message pushed into the cell, if it has not been popped since.
  function LastPushed(log: seq<Access>, cell: nat): Slot {
    if log == [] then Null
    else
      var last := log[|log| - 1];
      if last.cell != cell then LastPushed(log[..|log| - 1], cell)
      else if last.PushedInto? then Holds(last.element) else Null
  }

  function Opened(cells: seq<nat>, at: nat, cell: nat): seq<nat>
    requires at <= |cells|
  {
    seq(|cells| + 1, x requires 0 <= x <= |cells| => if x < at then cells[x] else if x == at then cell else cells[x - 1])
  }

  function Closed(cells: seq<nat>, at: nat): seq<nat>
    requires at < |cells|
  {
    seq(|cells| - 1, x requires 0 <= x < |cells| - 1 => if x < at then cells[x] else cells[x + 1])
  }

  // A command, in the history. A resize opens or closes one cell, before head or at the end.
  function Recorded(h: History, q: Ring, c: Command, least: nat): History
    requires InBounds(q) && |h.cells| == |q.slots|
  {
    match c
    case PushOf(e) =>
      if q.len >= |q.slots| then h
      else
        var behind := if q.len == 0 then q.tail else if q.tail + 1 == |q.slots| then 0 else q.tail + 1;
        h.(log := h.log + [PushedInto(h.cells[behind], e)])
    case PopOne =>
      if q.len == 0 then h
      else h.(log := h.log + [PoppedFrom(h.cells[q.head])], out := h.out + [LastPushed(h.log, h.cells[q.head])])
    case Expand =>
      var at := if q.tail < q.head then q.head else |q.slots|;
      h.(cells := Opened(h.cells, at, h.made), made := h.made + 1)
    case Reduce =>
      var at := if q.head > q.tail then q.head - 1 else |q.slots| - 1;
      if q.len < |q.slots| && |q.slots| != least then h.(cells := Closed(h.cells, at)) else h
  }

  // The history tells what is in each slot.
  ghost predicate Tells(h: History, q: Ring) {
    && |h.cells| == |q.slots|
    && (forall x, y :: 0 <= x < y < |h.cells| ==> h.cells[x] != h.cells[y])
    && (forall x :: 0 <= x < |h.cells| ==> h.cells[x] < h.made)
    && (forall k :: 0 <= k < |h.log| ==> h.log[k].cell < h.made)
    && forall x :: 0 <= x < |q.slots| ==> q.slots[x] == LastPushed(h.log, h.cells[x])
  }

  lemma {:induction false} NeverUsed(log: seq<Access>, cell: nat)
    requires forall k :: 0 <= k < |log| ==> log[k].cell != cell
    ensures LastPushed(log, cell) == Null
  {
    if log != [] {
      NeverUsed(log[..|log| - 1], cell);
    }
  }

  lemma {:induction false} AccessTells(h: History, q: Ring, h': History, q': Ring, a: Access, x: nat)
    requires Tells(h, q) && x < |q.slots| && a.cell == h.cells[x]
    requires h'.cells == h.cells && h'.made == h.made && h'.log == h.log + [a]
    requires q'.slots == q.slots[x := if a.PushedInto? then Holds(a.element) else Null]
    ensures Tells(h', q')
  {
    assert h'.log[..|h.log|] == h.log;
  }

  lemma {:induction false} OpenTells(h: History, q: Ring, at: nat, cells: seq<nat>, q': Ring)
    requires Tells(h, q) && at <= |q.slots|
    requires cells == Opened(h.cells, at, h.made) && q'.slots == WithSlot(q.slots, at)
    ensures Tells(h.(cells := cells, made := h.made + 1), q')
  {
    NeverUsed(h.log, h.made);
  }

  lemma {:induction false} CloseTells(h: History, q: Ring, at: nat, cells: seq<nat>, q': Ring)
    requires Tells(h, q) && at < |q.slots|
    requires cells == Closed(h.cells, at) && q'.slots == WithoutSlot(q.slots, at)
    ensures Tells(h.(cells := cells), q')
  {
  }

  lemma PushTells(h: History, q: Ring, e: Element, least: nat)
    requires Tells(h, q) && InBounds(q)
    ensures Tells(Recorded(h, q, PushOf(e), least), Pushed(q, Holds(e)))
  {
    if q.len < |q.slots| {
      var q' := Pushed(q, Holds(e));
      AfterWraps(q.tail, |q.slots|);
      AccessTells(h, q, Recorded(h, q, PushOf(e), least), q', PushedInto(h.cells[q'.tail], e), q'.tail);
    }
  }

  lemma CommandTells(h: History, q: Ring, c: Command, least: nat)
    requires Tells(h, q) && InBounds(q)
    ensures Tells(Recorded(h, q, c, least), Done(q, c, least))
    ensures Recorded(h, q, c, least).out == h.out + OutOf(q, c)
  {
    var h', q' := Recorded(h, q, c, least), Done(q, c, least);
    match c
    case PushOf(e) =>
      PushTells(h, q, e, least);
    case PopOne =>
      if q.len > 0 {
        AccessTells(h, q, h', q', PoppedFrom(h.cells[q.head]), q.head);
      }
    case Expand =>
      OpenTells(h, q, if q.tail < q.head then q.head else |q.slots|, h'.cells, q');
    case Reduce =>
      if Shrinks(q, least) {
        CloseTells(h, q, if q.head > q.tail then q.head - 1 else |q.slots| - 1, h'.cells, q');
      }
  }

  // Only a pop moves head to another cell, and only a push onto a queue that is not empty moves tail:
  // each to the cell in the next slot. A resize leaves them at their cells, but for a reduce when head
  // is right behind tail: it closes the cell of tail, with the newest message, and tail is at head's.
  lemma {:induction false} EndsMove(h: History, q: Ring, c: Command, least: nat)
    requires Tells(h, q) && InBounds(q) && InBounds(Done(q, c, least))
    ensures var h', q', n := Recorded(h, q, c, least), Done(q, c, least), |q.slots|;
      && |h'.cells| == |q'.slots|
      && h'.cells[q'.head] == h.cells[if c.PopOne? && q.len > 0 then After(q.head, n) else q.head]
      && h'.cells[q'.tail] == h.cells[if c.PushOf? && 0 < q.len < n then After(q.tail, n)
                                      else if c.Reduce? && Shrinks(q, least) && q.head == q.tail + 1 then q.head else q.tail]
  {
    CommandTells(h, q, c, least);
    AfterWraps(q.head, |q.slots|);
    AfterWraps(q.tail, |q.slots|);
  }

  // The commands leave indices that exist, one after the other, and end in q' with h' as history.
  predicate AllRun(q: Ring, h: History, cs: seq<Command>, least: nat, q': Ring, h': History)
    decreases |cs|
  {
    if cs == [] then q' == q && h' == h
    else
      InBounds(q) && |h.cells| == |q.slots| && AllRun(Done(q, cs[0], least), Recorded(h, q, cs[0], least), cs[1..], least, q', h')
  }

  function MadeHistory(capacity: nat): History {
    History(seq(capacity, i => i), capacity, [], [])
  }

  lemma {:induction false} RunTells(q: Ring, h: History, cs: seq<Command>, least: nat, q': Ring, h': History)
    requires Tells(h, q) && AllRun(q, h, cs, least, q', h')
    ensures Tells(h', q')
    decreases |cs|
  {
    if cs != [] {
      CommandTells(h, q, cs[0], least);
      RunTells(Done(q, cs[0], least), Recorded(h, q, cs[0], least), cs[1..], least, q', h');
    }
  }

  // Whatever pushes, pops, expands and reduces came before, as long as the indices exist: a pop
  // returns the last message pushed into the cell at head if that has not been popped since, and
  // null otherwise.
  lemma PopReturnsLastPushed(capacity: nat, cs: seq<Command>, least: nat, q: Ring, h: History)
    requires AllRun(Made(capacity), MadeHistory(capacity), cs, least, q, h) && InBounds(q)
    ensures |h.cells| == |q.slots|
    ensures PoppedMessage(q) == if q.len == 0 then Null else LastPushed(h.log, h.cells[q.head])
  {
    RunTells(Made(capacity), MadeHistory(capacity), cs, least, q, h);
  }

  // No message is pushed twice, or is one of `past`.
  predicate AllFresh(cs: seq<Command>, past: set<Element>)
    decreases |cs|
  {
    cs == [] || ((cs[0].PushOf? ==> cs[0].element !in past) && AllFresh(cs[1..], PastOf(past, cs[0])))
  }

  function PastOf(past: set<Element>, c: Command): set<Element> {
    if c.PushOf? then past + {c.element} else past
  }

  // A message is in one slot at most, and one that has been returned in none.
  predicate Once(q: Ring, out: seq<Slot>, past: set<Element>) {
    && (forall x, y :: 0 <= x < y < |q.slots| && q.slots[x].Holds? ==> q.slots[x] != q.slots[y])
    && (forall i, j :: 0 <= i < j < |out| && out[i].Holds? ==> out[i] != out[j])
    && (forall i, x :: 0 <= i < |out| && 0 <= x < |q.slots| && out[i].Holds? ==> out[i] != q.slots[x])
    && (forall x :: 0 <= x < |q.slots| && q.slots[x].Holds? ==> q.slots[x].element in past)
    && forall i :: 0 <= i < |out| && out[i].Holds? ==> out[i].element in past
  }

  lemma {:induction false} OnceKept(q: Ring, out: seq<Slot>, past: set<Element>, c: Command, least: nat)
    requires InBounds(q) && Once(q, out, past) && (c.PushOf? ==> c.element !in past)
    ensures Once(Done(q, c, least), out + OutOf(q, c), PastOf(past, c))
  {
    match c
    case PushOf(e) =>
      AfterWraps(q.tail, |q.slots|);
    case PopOne =>
      PopKeepsOnce(q, out, past);
    case _ =>
      ResizeKeepsOnce(q, out, past, c, least);
  }

  lemma {:induction false} PopKeepsOnce(q: Ring, out: seq<Slot>, past: set<Element>)
    requires InBounds(q) && Once(q, out, past)
    ensures Once(Popped(q), out + OutOf(q, PopOne), past)
  {
  }

  lemma {:induction false} ResizeKeepsOnce(q: Ring, out: seq<Slot>, past: set<Element>, c: Command, least: nat)
    requires InBounds(q) && Once(q, out, past) && (c.Expand? || c.Reduce?)
    ensures Once(Done(q, c, least), out, past)
  {
  }

  lemma {:induction false} OnceInRun(q: Ring, h: History, past: set<Element>, cs: seq<Command>, least: nat, q': Ring, h': History)
      returns (past': set<Element>)
    requires Tells(h, q) && Once(q, h.out, past) && AllFresh(cs, past) && AllRun(q, h, cs, least, q', h')
    ensures Once(q', h'.out, past') && forall e :: e in past' ==> e in past || PushOf(e) in cs
    decreases |cs|
  {
    past' := past;
    if cs != [] {
      CommandTells(h, q, cs[0], least);
      OnceKept(q, h.out, past, cs[0], least);
      past' := OnceInRun(Done(q, cs[0], least), Recorded(h, q, cs[0], least), PastOf(past, cs[0]), cs[1..], least, q', h');
    }
  }

  // So when no message is pushed twice, no two pops return the same one, and none returns one that
  // has not been pushed: a consumer never gets a message that has been freed.
  lemma NoMessageTwice(capacity: nat, cs: seq<Command>, least: nat, q: Ring, h: History)
    requires AllFresh(cs, {}) && AllRun(Made(capacity), MadeHistory(capacity), cs, least, q, h)
    ensures forall i, j :: 0 <= i < j < |h.out| && h.out[i].Holds? ==> h.out[i] != h.out[j]
    ensures forall i :: 0 <= i < |h.out| && h.out[i].Holds? ==> PushOf(h.out[i].element) in cs
  {
    var past := OnceInRun(Made(capacity), MadeHistory(capacity), {}, cs, least, q, h);
  }
}

/** One process of the record editor (editor.c): its variables, do_get and do_put, with what the
    other processes do to the record given as a sequence of turns. */
module RecordEditor {
  import opened EditorProtocol
  import opened Runs

  // The environment's part in one turn of do_put's loop: the value the record has when the lock
  // is granted, and the error return taken, if any. (F_GETLK fails like the lock itself.)
  datatype Fault = NoFault | LockFault | RereadFault | WriteFault
  datatype Turn = Turn(value: Record, fault: Fault)

  // orig_rec, work_rec and the record after the loop of do_put; whether it reports success; the
  // conflicts it met.
  datatype PutResult = PutResult(orig: Record, work: Record, stored: Record, success: bool, conflicts: nat)

  // do_put's loop on a record that holds `at` and is changed only by the turns.
  function PutLoop(orig: Record, work: Record, at: Record, turns: seq<Turn>): PutResult
    decreases |turns|
  {
    if turns == [] then
      if at == orig then PutResult(orig, work, work, true, 0) else PutResult(at, at, at, true, 1)
    else
      var Turn(v, fault) := turns[0];
      if fault.LockFault? || fault.RereadFault? then PutResult(orig, work, v, false, 0)
      else if v != orig then Conflict(PutLoop(v, v, v, turns[1..]))
      else if fault.WriteFault? then PutResult(orig, work, v, false, 0)
      else PutResult(orig, work, work, true, 0)
  }

  function Conflict(p: PutResult): PutResult {
    p.(conflicts := p.conflicts + 1)
  }

  // What the record holds when it is locked for the k-th time.
  function Found(at: Record, turns: seq<Turn>, k: nat): Record {
    if k < |turns| then turns[k].value else if turns == [] then at else turns[|turns| - 1].value
  }

  // What orig_rec holds then.
  function Expected(orig: Record, at: Record, turns: seq<Turn>, k: nat): Record {
    if k == 0 then orig else Found(at, turns, k - 1)
  }

  // The loop goes on exactly until the record is unchanged from one locking to the next; a first
  // match stores the edit, a later one leaves the record as it was found.
  lemma {:induction false} PutEndsAtFirstMatch(orig: Record, work: Record, at: Record, turns: seq<Turn>)
    ensures var p := PutLoop(orig, work, at, turns);
      && p.conflicts <= |turns| + 1
      && (forall k :: 0 <= k < p.conflicts ==> Found(at, turns, k) != Expected(orig, at, turns, k))
      && (p.success ==> Found(at, turns, p.conflicts) == Expected(orig, at, turns, p.conflicts))
      && p.stored == if p.success && p.conflicts == 0 then work else Found(at, turns, p.conflicts)
    decreases |turns|
  {
    if turns != [] && !turns[0].fault.LockFault? && !turns[0].fault.RereadFault? && turns[0].value != orig {
      var v := turns[0].value;
      PutEndsAtFirstMatch(v, v, v, turns[1..]);
      var q := PutLoop(v, v, v, turns[1..]);
      forall k: nat | k <= q.conflicts + 1
        ensures k > 0 ==> Found(at, turns, k) == Found(v, turns[1..], k - 1) &&
                          Expected(orig, at, turns, k) == Expected(v, v, turns[1..], k - 1)
      {
      }
      assert PutLoop(orig, work, at, turns) == Conflict(q);
    }
  }

  // Without errors, the edit is in the record afterwards exactly if the first comparison matched
  // or the value found at the end is the edit already. Success is reported in either case.
  lemma {:induction false} EditStoredIff(orig: Record, work: Record, at: Record, turns: seq<Turn>)
    requires forall i :: 0 <= i < |turns| ==> turns[i].fault.NoFault?
    ensures var p := PutLoop(orig, work, at, turns);
      && p.success
      && (p.stored == work <==> Found(at, turns, 0) == orig || Found(at, turns, p.conflicts) == work)
  {
    PutEndsAtFirstMatch(orig, work, at, turns);
    AlwaysReportsSuccess(orig, work, at, turns);
  }

  lemma {:induction false} AlwaysReportsSuccess(orig: Record, work: Record, at: Record, turns: seq<Turn>)
    requires forall i :: 0 <= i < |turns| ==> turns[i].fault.NoFault?
    ensures PutLoop(orig, work, at, turns).success
    decreases |turns|
  {
    if turns != [] && turns[0].value != orig {
      AlwaysReportsSuccess(turns[0].value, turns[0].value, turns[0].value, turns[1..]);
    }
  }

  // The moves of process t alone that lead from s to s'.
  predicate Alone(s: State, t: nat, events: seq<Event>, s': State)
    decreases |events|
  {
    if events == [] then s' == s
    else Enabled(s, Move(t, events[0])) && Alone(Next(s, Move(t, events[0])), t, events[1..], s')
  }

  lemma {:induction false} AloneThen(s: State, t: nat, events: seq<Event>, s1: State, ev: Event, s2: State)
    requires Alone(s, t, events, s1) && Enabled(s1, Move(t, ev)) && s2 == Next(s1, Move(t, ev))
    ensures Alone(s, t, events + [ev], s2)
    decreases |events|
  {
    if events == [] {
      assert events + [ev] == [ev];
    } else {
      assert (events + [ev])[1..] == events[1..] + [ev];
      AloneThen(Next(s, Move(t, events[0])), t, events[1..], s1, ev, s2);
    }
  }

  // The state after a put call of process t with the result p.
  function AfterPut(s: State, t: nat, p: PutResult): State
    requires t < |s.editors| && s.editors[t].recNo < |s.file|
  {
    var e := s.editors[t];
    State(s.file[e.recNo := p.stored], s.locks,
          s.log + [Commit(t, e.puts + 1, e.recNo, s.file[e.recNo], p.stored, e.work, p.conflicts)],
          s.editors[t := e.(orig := p.orig, work := p.work, hasWork := false, puts := e.puts + 1, intended := e.work,
                            putConflicts := p.conflicts, conflicts := e.conflicts + p.conflicts)])
  }

  // In the protocol, a put call that finds the lock free and is left alone ends after one
  // comparison or two, with the record, orig_rec and work_rec that PutLoop gives.
  lemma PutLeftAlone(s: State, t: nat) returns (events: seq<Event>, s': State)
    requires t < |s.editors| && s.editors[t].phase.Idle? && s.editors[t].hasWork && s.editors[t].orig != s.editors[t].work
    requires s.editors[t].recNo < |s.file| && s.editors[t].recNo !in s.locks
    ensures Alone(s, t, events, s') && |events| <= 8
    ensures s' == AfterPut(s, t, PutLoop(s.editors[t].orig, s.editors[t].work, s.file[s.editors[t].recNo], []))
  {
    var p := PutLoop(s.editors[t].orig, s.editors[t].work, s.file[s.editors[t].recNo], []);
    var s1;
    if s.file[s.editors[t].recNo] == s.editors[t].orig {
      events, s1 := FirstMatches(s, t);
    } else {
      events, s1 := SecondMatches(s, t);
    }
    s', events := WriteAndUnlock(s, t, events, s1);
    PutEnds(s, t, p, s1, s');
  }

  lemma FirstMatches(s: State, t: nat) returns (events: seq<Event>, s1: State)
    requires t < |s.editors| && s.editors[t].phase.Idle? && s.editors[t].hasWork && s.editors[t].orig != s.editors[t].work
    requires s.editors[t].recNo < |s.file| && s.editors[t].recNo !in s.locks
    requires s.file[s.editors[t].recNo] == s.editors[t].orig
    ensures Alone(s, t, events, s1) && |events| <= 6
    ensures Compares(s, t, s1, PutResult(s.editors[t].orig, s.editors[t].work, s.editors[t].work, true, 0))
  {
    s1, events := s, [];
    assert Alone(s, t, events, s1);
    s1, events := Then(s, t, events, s1, Put);
    s1, events := LockAndCompare(s, t, events, s1);
  }

  lemma SecondMatches(s: State, t: nat) returns (events: seq<Event>, s1: State)
    requires t < |s.editors| && s.editors[t].phase.Idle? && s.editors[t].hasWork && s.editors[t].orig != s.editors[t].work
    requires s.editors[t].recNo < |s.file| && s.editors[t].recNo !in s.locks
    requires s.file[s.editors[t].recNo] != s.editors[t].orig
    ensures Alone(s, t, events, s1) && |events| <= 6
    ensures var v := s.file[s.editors[t].recNo]; Compares(s, t, s1, PutResult(v, v, v, true, 1))
  {
    s1, events := s, [];
    assert Alone(s, t, events, s1);
    s1, events := Then(s, t, events, s1, Put);
    s1, events := LockAndCompare(s, t, events, s1);
    s1, events := UnlockAndRetry(s, t, events, s1);
  }

  // The state in which process t is about to write.
  predicate Compares(s: State, t: nat, s1: State, p: PutResult)
    requires t < |s.editors|
  {
    var e := s.editors[t];
    s1.file == s.file && s1.log == s.log && s1.locks == s.locks[e.recNo := t] &&
    s1.editors == s.editors[t := e.(phase := Matching, orig := p.orig, work := p.stored, puts := e.puts + 1, intended := e.work,
                                    putConflicts := p.conflicts, conflicts := e.conflicts + p.conflicts)]
  }

  lemma PutEnds(s: State, t: nat, p: PutResult, s1: State, s2: State)
    requires t < |s.editors| && s.editors[t].recNo < |s.file| && s.editors[t].recNo !in s.locks && s.editors[t].phase.Idle?
    requires p == PutLoop(s.editors[t].orig, s.editors[t].work, s.file[s.editors[t].recNo], [])
    requires Compares(s, t, s1, p) && s2 == AfterWrite(s1, t)
    ensures s2 == AfterPut(s, t, p)
  {
    assert s2.locks == s.locks;
  }

  // The write and the unlock of a process that holds the lock.
  function AfterWrite(s1: State, t: nat): State
    requires t < |s1.editors| && s1.editors[t].recNo < |s1.file|
  {
    var e := s1.editors[t];
    State(s1.file[e.recNo := e.work], s1.locks - {e.recNo}, s1.log + [CommitOf(e, t)],
          s1.editors[t := e.(phase := Idle, hasWork := false)])
  }

  lemma LockAndCompare(s: State, t: nat, events: seq<Event>, s1: State) returns (s2: State, events': seq<Event>)
    requires Alone(s, t, events, s1)
    requires t < |s1.editors| && s1.editors[t].phase.Locking? && s1.editors[t].recNo < |s1.file| && s1.editors[t].recNo !in s1.locks
    ensures Alone(s, t, events', s2) && |events'| == |events| + 2
    ensures var e := s1.editors[t];
      s2 == s1.(locks := s1.locks[e.recNo := t], editors := s1.editors[t := Compared(e.(phase := Holding), s1.file[e.recNo])])
  {
    s2, events' := Then(s, t, events, s1, Lock);
    s2, events' := Then(s, t, events', s2, Reread);
    assert s2.editors == s1.editors[t := s2.editors[t]];
  }

  // The second comparison matches.
  lemma UnlockAndRetry(s: State, t: nat, events: seq<Event>, s1: State) returns (s2: State, events': seq<Event>)
    requires Alone(s, t, events, s1)
    requires t < |s1.editors| && s1.editors[t].phase.Conflicted? && s1.editors[t].recNo < |s1.file|
    requires s1.editors[t].orig == s1.file[s1.editors[t].recNo] && s1.editors[t].recNo in s1.locks
    ensures Alone(s, t, events', s2) && |events'| == |events| + 3
    ensures s2.file == s1.file && s2.log == s1.log && s2.locks == s1.locks[s1.editors[t].recNo := t]
    ensures s2.editors == s1.editors[t := s1.editors[t].(phase := Matching)]
  {
    s2, events' := Then(s, t, events, s1, Unlock);
    s2, events' := LockAndCompare(s, t, events', s2);
  }

  lemma WriteAndUnlock(s: State, t: nat, events: seq<Event>, s1: State) returns (s2: State, events': seq<Event>)
    requires Alone(s, t, events, s1)
    requires t < |s1.editors| && s1.editors[t].phase.Matching? && s1.editors[t].recNo < |s1.file|
    ensures Alone(s, t, events', s2) && |events'| == |events| + 2
    ensures s2 == AfterWrite(s1, t)
  {
    s2, events' := Then(s, t, events, s1, Write);
    s2, events' := Then(s, t, events', s2, Unlock);
  }

  lemma Then(s: State, t: nat, events: seq<Event>, s1: State, ev: Event) returns (s2: State, events': seq<Event>)
    requires Alone(s, t, events, s1) && Enabled(s1, Move(t, ev))
    ensures s2 == Next(s1, Move(t, ev)) && events' == events + [ev] && Alone(s, t, events', s2)
  {
    s2, events' := Next(s1, Move(t, ev)), events + [ev];
    AloneThen(s, t, events, s1, ev, s2);
  }

  lemma {:induction false} AloneReaches(from: State, s: State, t: nat, events: seq<Event>, s': State)
    requires Reaches(from, Steps, s) && Alone(s, t, events, s')
    ensures Reaches(from, Steps, s')
    decreases |events|
  {
    if events != [] {
      var s1 := Goes(from, s, Move(t, events[0]));
      AloneReaches(from, s1, t, events[1..], s');
    }
  }

  lemma Goes(from: State, s: State, m: Move) returns (s': State)
    requires Reaches(from, Steps, s) && Enabled(s, m)
    ensures Reaches(from, Steps, s') && s' == Next(s, m)
  {
    s' := Next(s, m);
    assert Steps(s, s');
    StepLast(from, Steps, s, s');
  }

  // Two processes that have fetched nothing, and a file of one record.
  function TwoEditors(v: Record): State {
    var idle := Editor(v, v, 0, false, Idle, 0, v, 0, 0, 0, 0);
    State([v], map[], [], [idle, idle])
  }

  // The second put of a record that both processes had fetched.
  predicate SecondEditLost(s: State, a: Record, b: Record) {
    && s.file == [a] && |s.log| == 2 && |s.editors| == 2
    && s.log[1].editor == 1 && s.log[1].intended == b && s.log[1].value == a
    && s.editors[1].phase.Idle? && !s.editors[1].hasWork
  }

  lemma SecondPutWritesFirst(v: Record, a: Record, b: Record) returns (s: State)
    requires v != a && v != b && a != b
    ensures Reaches(TwoEditors(v), Steps, s) && SecondEditLost(s, a, b)
  {
    var from := TwoEditors(v);
    Stays(from, Steps);
    s := Goes(from, from, Move(0, Get(0, v, a)));
    s := Goes(from, s, Move(1, Get(0, v, b)));
    assert s.editors == [from.editors[0].(work := a, hasWork := true), from.editors[0].(work := b, hasWork := true)];
    var events, s1 := PutLeftAlone(s, 0);
    AloneReaches(from, s, 0, events, s1);
    events, s := PutLeftAlone(s1, 1);
    AloneReaches(from, s1, 1, events, s);
  }

  // An edit that is lost: two processes fetch the same record, edit it differently and save it, the
  // second after the first. The second put reports success and writes the first edit once more.
  lemma EditCanBeLost(v: Record, a: Record, b: Record) returns (run: seq<State>)
    requires v != a && v != b && a != b
    ensures IsRun(run) && run[0].file == [v] && SecondEditLost(run[|run| - 1], a, b)
  {
    var s := SecondPutWritesFirst(v, a, b);
    run := RunOn([TwoEditors(v)], Steps, Steps, s);
    assert run[0] == TwoEditors(v);
  }

  // It can be lost without anybody else's doing: a read that fails, of any record, leaves its garbage
  // in orig_rec, so the put of the earlier edit sees a conflict.
  lemma FailedReadLosesEdit(v: Record, a: Record, g: Record) returns (run: seq<State>)
    requires v != a && g != v && g != a
    ensures IsRun(run) && run[0].file == [v]
    ensures var s := run[|run| - 1];
      && s.file == [v] && |s.log| == 1 && s.log[0].editor == 0 && s.log[0].intended == a && s.log[0].value == v
      && |s.editors| > 0 && s.editors[0].phase.Idle? && !s.editors[0].hasWork
  {
    var from := TwoEditors(v);
    Stays(from, Steps);
    var s := Goes(from, from, Move(0, Get(0, v, a)));
    s := Goes(from, s, Move(0, GetFails(g)));
    assert s.editors[0].orig == g && s.editors[0].work == a;
    var events, s' := PutLeftAlone(s, 0);
    AloneReaches(from, s, 0, events, s');
    run := RunOn([from], Steps, Steps, s');
    assert run[0] == from;
  }

  class Process {
    var origRec: Record
    var workRec: Record
    var lastRecNo: int
    var hasWork: bool

    ghost predicate Valid(count: nat)
      reads this
    {
      hasWork ==> 0 <= lastRecNo < count
    }

    constructor (zero: Record)
      ensures !hasWork && lastRecNo == -1 && origRec == zero && workRec == zero
    {
      origRec, workRec, lastRecNo, hasWork := zero, zero, -1, false;
    }

    // do_get. `read` is what the unlocked read left in orig_rec, whether or not it succeeded;
    // `edited` is the record the user made of it.
    method DoGet(file: array<Record>, rn: int, readOk: bool, read: Record, edited: Record)
      requires Valid(file.Length)
      modifies this
      ensures Valid(file.Length)
      ensures 0 <= rn < file.Length && readOk ==> origRec == read && workRec == edited && lastRecNo == rn && hasWork
      ensures 0 <= rn < file.Length && !readOk ==>
                origRec == read && workRec == old(workRec) && lastRecNo == old(lastRecNo) && hasWork == old(hasWork)
      ensures !(0 <= rn < file.Length) ==> unchanged(this)
    {
      if rn < 0 || rn >= file.Length {
        return;
      }
      origRec := read;
      if !readOk {
        return;
      }
      workRec := origRec;
      lastRecNo := rn;
      hasWork := true;
      workRec := edited;
    }

    // One turn of the loop, from the lock to the unlock.
    method PutTurn(file: array<Record>, fault: Fault) returns (retry: bool, done: bool)
      requires 0 <= lastRecNo < file.Length && !fault.LockFault?
      modifies this, file
      ensures lastRecNo == old(lastRecNo)
      ensures old(fault.RereadFault? || (fault.WriteFault? && file[lastRecNo] == origRec)) ==> !retry && !done
      ensures old(!fault.RereadFault? && file[lastRecNo] != origRec) ==> retry && !done
      ensures old(fault.NoFault? && file[lastRecNo] == origRec) ==> !retry && done
      ensures file[..] == if done then old(file[..][lastRecNo := workRec]) else old(file[..])
      ensures origRec == (if retry then old(file[lastRecNo]) else old(origRec))
      ensures workRec == (if retry then old(file[lastRecNo]) else old(workRec))
      ensures hasWork == (old(hasWork) && !done)
    {
      retry, done := false, false;
      if fault.RereadFault? {
        return;
      }
      var current := file[lastRecNo];
      if current != origRec {
        origRec := current;
        workRec := current;
        retry := true;
        return;
      }
      if fault.WriteFault? {
        return;
      }
      file[lastRecNo] := workRec;
      hasWork := false;
      done := true;
    }

    // do_put, among processes that change this record as the turns say.
    method DoPut(file: array<Record>, turns: seq<Turn>)
      requires Valid(file.Length)
      modifies this, file
      ensures Valid(file.Length) && lastRecNo == old(lastRecNo)
      ensures !old(hasWork) ==> unchanged(this) && file[..] == old(file[..])
      ensures old(hasWork && origRec == workRec) ==>
                !hasWork && origRec == old(origRec) && workRec == old(workRec) && file[..] == old(file[..])
      ensures old(hasWork && origRec != workRec) ==>
                var p := PutLoop(old(origRec), old(workRec), old(file[lastRecNo]), turns);
                && origRec == p.orig && workRec == p.work && hasWork == !p.success
                && file[..] == old(file[..])[lastRecNo := p.stored]
    {
      if !hasWork {
        return;
      }
      if origRec == workRec {
        hasWork := false;
        return;
      }
      ghost var p := PutLoop(origRec, workRec, file[lastRecNo], turns);
      var k, retry := 0, true;
      while retry
        invariant k <= |turns| && lastRecNo == old(lastRecNo) && 0 <= lastRecNo < file.Length
        invariant file[..] == old(file[..])[lastRecNo := file[lastRecNo]]
        invariant retry ==> hasWork
        invariant retry ==> PutLoop(origRec, workRec, file[lastRecNo], turns[k..]).(conflicts := 0) == p.(conflicts := 0)
        invariant retry && k == |turns| > 0 ==> file[lastRecNo] == origRec
        invariant !retry ==> origRec == p.orig && workRec == p.work && file[lastRecNo] == p.stored && hasWork == !p.success
        decreases retry, |turns| - k, retry && file[lastRecNo] != origRec
      {
        var fault := NoFault;
        if k < |turns| {
          // The others' commits before the lock is granted.
          file[lastRecNo] := turns[k].value;
          fault := turns[k].fault;
          assert turns[k..][0] == turns[k] && turns[k..][1..] == turns[k + 1..];
          k := k + 1;
        }
        if fault.LockFault? {
          return;
        }
        var done: bool;
        retry, done := PutTurn(file, fault);
      }
    }
  }
}

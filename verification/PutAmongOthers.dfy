/** do_put among the other processes (editor.c): the protocol's put calls and the loop of do_put do
    the same, in both directions. */
module PutAmongOthers {
  import opened EditorProtocol
  import opened RecordEditor
  import opened Runs

  // Inside do_put.
  predicate Busy(e: Editor) {
    Saving(e) || e.phase.Written?
  }

  predicate Wrote(log: seq<Commit>, t: nat, put: nat, v: Record) {
    exists j :: 0 <= j < |log| && log[j].editor == t && log[j].put == put && log[j].value == v
  }

  predicate WroteNothing(log: seq<Commit>, t: nat, put: nat) {
    forall j :: 0 <= j < |log| ==> log[j].editor != t || log[j].put != put
  }

  // A put call of process t that stood at e in its loop has ended at e' as do_put's loop does with
  // these turns.
  ghost predicate Ends(e: Editor, t: nat, turns: seq<Turn>, e': Editor, log: seq<Commit>) {
    var p := PutLoop(e.orig, e.work, e.work, turns);
    && turns != [] && e'.phase.Idle?
    && e'.orig == p.orig && e'.work == p.work && e'.recNo == e.recNo && e'.hasWork == !p.success
    && e'.puts == e.puts && e'.intended == e.intended && e'.putConflicts == e.putConflicts + p.conflicts
    && if p.success then Wrote(log, t, e.puts, p.stored) else WroteNothing(log, t, e.puts)
  }

  // How it ends from where it stands, when the record holds v: a process that has locked the record
  // has begun its turn.
  ghost predicate EndsFrom(e: Editor, v: Record, t: nat, turns: seq<Turn>, e': Editor, log: seq<Commit>) {
    if e.phase.Written? then e' == e.(phase := Idle, hasWork := false)
    else
      && Ends(e, t, turns, e', log)
      && (e.phase.Holding? ==> turns[0].value == v && !turns[0].fault.LockFault?)
      && (e.phase.Matching? ==> turns[0].value == e.orig && !turns[0].fault.LockFault? && !turns[0].fault.RereadFault?)
  }

  // What the loop meets when the process goes from e to e' and the record holds v: the value it finds
  // under the lock, and the error.
  function Meets(e: Editor, e': Editor, v: Record): seq<Turn> {
    if e'.phase.Idle? then
      match e.phase
      case Locking => [Turn(v, LockFault)]
      case Holding => [Turn(v, RereadFault)]
      case Matching => [Turn(v, WriteFault)]
      case _ => []
    else if (e.phase.Holding? && e'.phase.Conflicted?) || (e.phase.Matching? && e'.phase.Written?) then [Turn(v, NoFault)]
    else []
  }

  // All it meets on the way.
  function MetOn(s: State, path: seq<State>, t: nat): seq<Turn>
    decreases |path|
  {
    if path == [] || t >= |s.editors| || t >= |path[0].editors| || s.editors[t].recNo >= |s.file| then []
    else Meets(s.editors[t], path[0].editors[t], s.file[s.editors[t].recNo]) + MetOn(path[0], path[1..], t)
  }

  lemma NothingYet(s: State, t: nat)
    requires LogInv(s) && t < |s.editors| && Saving(s.editors[t])
    ensures WroteNothing(s.log, t, s.editors[t].puts)
  {
    forall j | 0 <= j < |s.log| ensures s.log[j].editor != t || s.log[j].put != s.editors[t].puts {
      assert Earlier(s.log[j], s.editors);
    }
  }

  // An error return, or the last unlock, ends the call.
  lemma LastMoveEnds(s: State, t: nat, ev: Event)
    requires LogInv(s) && Enabled(s, Move(t, ev)) && Busy(s.editors[t]) && NextEditor(s, Move(t, ev)).phase.Idle?
    requires EditInv(s.file, s.editors[t])
    ensures var e, e', v := s.editors[t], NextEditor(s, Move(t, ev)), s.file[s.editors[t].recNo];
      EndsFrom(e, v, t, Meets(e, e', v), e', Next(s, Move(t, ev)).log)
  {
    if Saving(s.editors[t]) {
      NothingYet(s, t);
    }
  }

  // The call goes on; the rest of it, from the next state on, is given.
  lemma OwnMoveEnds(s: State, t: nat, ev: Event, rest: seq<Turn>, e': Editor, log: seq<Commit>)
    requires Enabled(s, Move(t, ev)) && Busy(s.editors[t]) && Busy(NextEditor(s, Move(t, ev))) && EditInv(s.file, s.editors[t])
    requires EndsFrom(NextEditor(s, Move(t, ev)), Next(s, Move(t, ev)).file[s.editors[t].recNo], t, rest, e', log)
    requires NextEditor(s, Move(t, ev)).phase.Written? ==> rest == []
    requires Next(s, Move(t, ev)).log <= log
    ensures var e, v := s.editors[t], s.file[s.editors[t].recNo];
      EndsFrom(e, v, t, Meets(e, NextEditor(s, Move(t, ev)), v) + rest, e', log)
  {
    var e, v := s.editors[t], s.file[s.editors[t].recNo];
    if ev.Reread? && v != e.orig {
      assert ([Turn(v, NoFault)] + rest)[1..] == rest;
    } else if ev.Write? {
      assert log[|s.log|] == CommitOf(e, t);
    } else {
      assert Meets(e, NextEditor(s, Move(t, ev)), v) + rest == rest;
    }
  }

  // The states from s on through which process t is inside do_put, and s', in which it is out of it.
  ghost predicate InCall(s: State, path: seq<State>, t: nat, s': State)
    decreases |path|
  {
    t < |s.editors| &&
    if path == [] then s' == s && s.editors[t].phase.Idle?
    else Busy(s.editors[t]) && Steps(s, path[0]) && InCall(path[0], path[1..], t, s')
  }

  // Another process moves meanwhile.
  lemma OtherKeepsEnds(s: State, m: Move, t: nat, turns: seq<Turn>, e': Editor, log: seq<Commit>)
    requires LocksInv(s) && Enabled(s, m) && m.editor != t && t < |s.editors| && s.editors[t].recNo < |s.file|
    requires EndsFrom(s.editors[t], Next(s, m).file[s.editors[t].recNo], t, turns, e', log)
    ensures EndsFrom(s.editors[t], s.file[s.editors[t].recNo], t, turns, e', log)
  {
    if HoldsLock(s.editors[t]) {
      OthersDoNotWrite(s, m, t);
    }
  }

  // A step of anybody.
  lemma AnyStepEnds(s: State, s': State, t: nat, rest: seq<Turn>, e': Editor, log: seq<Commit>)
    requires LocksInv(s) && LogInv(s) && Steps(s, s') && t < |s.editors| == |s'.editors| && s'.log <= log
    requires Busy(s.editors[t]) && EditInv(s.file, s.editors[t])
    requires if Busy(s'.editors[t])
             then && s'.editors[t].recNo < |s'.file| && EndsFrom(s'.editors[t], s'.file[s'.editors[t].recNo], t, rest, e', log)
                  && (s'.editors[t].phase.Written? ==> rest == [])
             else e'.phase.Idle? && e' == s'.editors[t] && log == s'.log && rest == []
    ensures s.editors[t].recNo < |s.file|
    ensures var met := Meets(s.editors[t], s'.editors[t], s.file[s.editors[t].recNo]) + rest;
      EndsFrom(s.editors[t], s.file[s.editors[t].recNo], t, met, e', log) && (s.editors[t].phase.Written? ==> met == [])
  {
    var m :| Enabled(s, m) && s' == Next(s, m);
    if m.editor != t {
      assert Meets(s.editors[t], s.editors[t], s.file[s.editors[t].recNo]) + rest == rest;
      OtherKeepsEnds(s, m, t, rest, e', log);
    } else {
      OwnStepEnds(s, t, m.event, rest, e', log);
    }
  }

  lemma OwnStepEnds(s: State, t: nat, ev: Event, rest: seq<Turn>, e': Editor, log: seq<Commit>)
    requires LogInv(s) && Enabled(s, Move(t, ev)) && Busy(s.editors[t]) && EditInv(s.file, s.editors[t]) && Next(s, Move(t, ev)).log <= log
    requires var e1, s' := NextEditor(s, Move(t, ev)), Next(s, Move(t, ev));
      if Busy(e1)
      then EndsFrom(e1, s'.file[s.editors[t].recNo], t, rest, e', log) && (e1.phase.Written? ==> rest == [])
      else e'.phase.Idle? && e' == e1 && log == s'.log && rest == []
    ensures var met := Meets(s.editors[t], NextEditor(s, Move(t, ev)), s.file[s.editors[t].recNo]) + rest;
      EndsFrom(s.editors[t], s.file[s.editors[t].recNo], t, met, e', log) && (s.editors[t].phase.Written? ==> met == [])
  {
    if Busy(NextEditor(s, Move(t, ev))) {
      OwnMoveEnds(s, t, ev, rest, e', log);
    } else {
      var met := Meets(s.editors[t], NextEditor(s, Move(t, ev)), s.file[s.editors[t].recNo]);
      assert met + rest == met;
      LastMoveEnds(s, t, ev);
    }
  }

  lemma StepKeeps(file0: seq<Record>, s: State, s': State)
    requires Inv(file0, s) && Steps(s, s')
    ensures Inv(file0, s') && s.log <= s'.log && |s.editors| == |s'.editors|
  {
    var m :| Enabled(s, m) && s' == Next(s, m);
    NextInv(file0, s, m);
  }

  // A call that has begun ends as the loop does with the values and errors it met, whatever the
  // other processes do meanwhile.
  lemma {:induction false} CallEnds(file0: seq<Record>, s: State, path: seq<State>, t: nat, s': State)
    requires Inv(file0, s) && path != [] && InCall(s, path, t, s')
    ensures s.log <= s'.log && t < |s'.editors| && (s.editors[t].phase.Written? ==> MetOn(s, path, t) == [])
    ensures s.editors[t].recNo < |s.file|
    ensures EndsFrom(s.editors[t], s.file[s.editors[t].recNo], t, MetOn(s, path, t), s'.editors[t], s'.log)
    decreases |path|
  {
    StepKeeps(file0, s, path[0]);
    if path[1..] != [] {
      CallEnds(file0, path[0], path[1..], t, s');
    }
    assert EditorInv(s.file, s.log, s.editors[t], t);
    AnyStepEnds(s, path[0], t, MetOn(path[0], path[1..], t), s'.editors[t], s'.log);
    assert MetOn(s, path, t) == Meets(s.editors[t], path[0].editors[t], s.file[s.editors[t].recNo]) + MetOn(path[0], path[1..], t);
  }

  // A put call that ends does what do_put does: nothing without work, only the flag without changes,
  // and otherwise what its loop does with the values it found under the lock and the error it met,
  // if any; the log has its write exactly if it succeeds.
  lemma PutRefinesLoop(run: seq<State>, now: nat, t: nat, path: seq<State>, s': State)
    requires IsRun(run) && now < |run| && Enabled(run[now], Move(t, Put)) && InCall(Next(run[now], Move(t, Put)), path, t, s')
    ensures t < |s'.editors|
    ensures var s := Next(run[now], Move(t, Put)); var e, e' := run[now].editors[t], s'.editors[t];
      if !e.hasWork then s' == run[now]
      else if e.orig == e.work then s' == run[now].(editors := run[now].editors[t := e.(hasWork := false)])
      else Ends(e.(puts := e.puts + 1, intended := e.work, putConflicts := 0), t, MetOn(s, path, t), e', s'.log)
  {
    var s := Next(run[now], Move(t, Put));
    RunInv(run, now);
    NextInv(run[0].file, run[now], Move(t, Put));
    if path != [] {
      CallEnds(run[0].file, s, path, t, s');
    } else {
      assert run[now].editors[t := run[now].editors[t]] == run[now].editors;
    }
  }

  // s and s1 differ in process t, in the value of its record and in the log.
  predicate OnlyDiffer(s: State, t: nat, s1: State, v: Record) {
    && t < |s.editors| == |s1.editors| && s.editors[t].recNo < |s.file|
    && s1.file == s.file[s.editors[t].recNo := v] && s1.locks == s.locks
    && s1.editors == s.editors[t := s1.editors[t]] && s1.editors[t].recNo == s.editors[t].recNo
  }

  // Process u fetches, edits and saves record r, which nobody has locked.
  lemma OtherStores(from: State, s: State, u: nat, r: nat, v: Record) returns (s1: State)
    requires Reaches(from, Steps, s) && u < |s.editors| && s.editors[u].phase.Idle? && r < |s.file| && r !in s.locks
    ensures Reaches(from, Steps, s1) && s1.file == s.file[r := v] && s1.locks == s.locks
    ensures |s1.editors| == |s.editors| && s1.editors == s.editors[u := s1.editors[u]] && s1.editors[u].phase.Idle?
  {
    s1 := s;
    if v != s.file[r] {
      s1 := Goes(from, s, Move(u, Get(r, s.file[r], v)));
      var events, s2 := PutLeftAlone(s1, u);
      AloneReaches(from, s1, u, events, s2);
      s1 := s2;
    }
  }

  // A process that has locked its record has re-read it.
  lemma LocksAndReads(from: State, s: State, t: nat) returns (s1: State)
    requires Reaches(from, Steps, s) && t < |s.editors| && s.editors[t].phase.Locking?
    requires s.editors[t].recNo < |s.file| && s.editors[t].recNo !in s.locks
    ensures Reaches(from, Steps, s1)
    ensures var e := s.editors[t];
      s1 == s.(locks := s.locks[e.recNo := t], editors := s.editors[t := Compared(e.(phase := Holding), s.file[e.recNo])])
  {
    s1 := Goes(from, s, Move(t, Lock));
    s1 := Goes(from, s1, Move(t, Reread));
    assert s1.editors == s.editors[t := s1.editors[t]];
  }

  predicate Locks(s: State, t: nat) {
    t < |s.editors| && s.editors[t].phase.Locking? && s.editors[t].recNo < |s.file| && s.editors[t].recNo !in s.locks
  }

  // The process gives up the lock it took in s0.
  lemma Frees(from: State, s0: State, s: State, t: nat, ev: Event) returns (s1: State)
    requires Reaches(from, Steps, s) && Locks(s0, t) && Enabled(s, Move(t, ev)) && t < |s.editors| && !ev.Write?
    requires s.editors[t].recNo == s0.editors[t].recNo && s.locks == s0.locks[s0.editors[t].recNo := t]
    requires HoldsLock(s.editors[t]) && !HoldsLock(NextEditor(s, Move(t, ev)))
    ensures Reaches(from, Steps, s1)
    ensures s1 == s.(locks := s0.locks, editors := s.editors[t := NextEditor(s, Move(t, ev))])
  {
    s1 := Goes(from, s, Move(t, ev));
    assert s1.locks == s0.locks;
  }

  lemma TurnFails(from: State, s: State, t: nat, fault: Fault) returns (s1: State)
    requires Reaches(from, Steps, s) && Locks(s, t) && !fault.NoFault?
    requires fault.WriteFault? ==> s.file[s.editors[t].recNo] == s.editors[t].orig
    ensures Reaches(from, Steps, s1)
    ensures OnlyDiffer(s, t, s1, s.file[s.editors[t].recNo]) && s1.editors[t] == s.editors[t].(phase := Idle)
  {
    if fault.LockFault? {
      s1 := Goes(from, s, Move(t, LockFails));
    } else if fault.RereadFault? {
      s1 := Goes(from, s, Move(t, Lock));
      s1 := Frees(from, s, s1, t, RereadFails);
    } else {
      s1 := LocksAndReads(from, s, t);
      s1 := Frees(from, s, s1, t, WriteFails);
    }
    assert s1.editors == s.editors[t := s1.editors[t]];
  }

  lemma TurnConflicts(from: State, s: State, t: nat) returns (s1: State)
    requires Reaches(from, Steps, s) && Locks(s, t) && s.file[s.editors[t].recNo] != s.editors[t].orig
    ensures Reaches(from, Steps, s1)
    ensures var e, v := s.editors[t], s.file[s.editors[t].recNo];
      && OnlyDiffer(s, t, s1, v)
      && s1.editors[t] == e.(phase := Locking, orig := v, work := v, putConflicts := e.putConflicts + 1, conflicts := e.conflicts + 1)
  {
    s1 := LocksAndReads(from, s, t);
    s1 := Frees(from, s, s1, t, Unlock);
    assert s1.editors == s.editors[t := s1.editors[t]];
  }

  lemma TurnWrites(from: State, s: State, t: nat) returns (s1: State)
    requires Reaches(from, Steps, s) && Locks(s, t) && s.file[s.editors[t].recNo] == s.editors[t].orig
    ensures Reaches(from, Steps, s1)
    ensures OnlyDiffer(s, t, s1, s.editors[t].work) && s1.editors[t] == s.editors[t].(phase := Idle, hasWork := false)
  {
    s1 := LocksAndReads(from, s, t);
    s1 := Goes(from, s1, Move(t, Write));
    s1 := Frees(from, s, s1, t, Unlock);
    assert s1.editors == s.editors[t := s1.editors[t]];
  }

  // Conversely, everything the loop can meet comes about: for any values and errors there are moves,
  // of one other process besides, after which the call has ended as the loop does with them.
  lemma {:induction false} TurnsHappen(from: State, s: State, t: nat, u: nat, turns: seq<Turn>) returns (s': State)
    requires Reaches(from, Steps, s) && t < |s.editors| && u < |s.editors| && t != u
    requires s.editors[t].phase.Locking? && s.editors[t].hasWork && s.editors[u].phase.Idle?
    requires s.editors[t].recNo < |s.file| && s.editors[t].recNo !in s.locks
    ensures Reaches(from, Steps, s') && t < |s'.editors|
    ensures var e, e', r := s.editors[t], s'.editors[t], s.editors[t].recNo; var p := PutLoop(e.orig, e.work, s.file[r], turns);
      && e'.phase.Idle? && e'.orig == p.orig && e'.work == p.work && e'.hasWork == !p.success
      && e'.putConflicts == e.putConflicts + p.conflicts && s'.file == s.file[r := p.stored]
    decreases |turns|, if s.editors[t].recNo < |s.file| && s.editors[t].orig == s.file[s.editors[t].recNo] then 0 else 1
  {
    var e, r := s.editors[t], s.editors[t].recNo;
    var Turn(v, fault) := if turns == [] then Turn(s.file[r], NoFault) else turns[0];
    var s1 := OtherStores(from, s, u, r, v);
    if fault.LockFault? || fault.RereadFault? || (v == e.orig && fault.WriteFault?) {
      s' := TurnFails(from, s1, t, fault);
    } else if v == e.orig {
      s' := TurnWrites(from, s1, t);
    } else {
      s' := TurnConflicts(from, s1, t);
      s' := TurnsHappen(from, s', t, u, if turns == [] then [] else turns[1..]);
    }
  }
}

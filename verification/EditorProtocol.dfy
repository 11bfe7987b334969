/** The record editor of lab7 (editor.c): any number of processes that fetch a record without a
    lock, edit it, and save it by lock, re-read, compare, write or retry. */
module EditorProtocol {
  import opened Runs

  // record_t
  datatype Record = Record(name: string, address: string, semester: nat)

  // Where a process is: at the command prompt, or inside do_put between two accesses to the file
  // or its locks. Gone: it has left or was killed, and the system has dropped its lock.
  datatype Phase = Idle | Locking | Holding | Matching | Written | Conflicted | Gone

  // orig_rec, work_rec, last_rec_no and has_work, followed by history no step depends on:
  // put calls made, what the current one set out to save and the conflicts it met; since the last
  // fetch, the conflicts met, the reads whose value was not the record's, and the commits there
  // were before.
  datatype Editor = Editor(orig: Record, work: Record, recNo: nat, hasWork: bool, phase: Phase,
                           puts: nat, intended: Record, putConflicts: nat,
                           conflicts: nat, misreads: nat, since: nat)

  // A write to the file: who, in which put call, which record; orig_rec and work_rec then.
  datatype Commit = Commit(editor: nat, put: nat, recNo: nat, base: Record, value: Record, intended: Record, conflicts: nat)

  // The data file, the holder of each record lock, every write so far, the processes.
  datatype State = State(file: seq<Record>, locks: map<nat, nat>, log: seq<Commit>, editors: seq<Editor>)

  // Get carries the value the unlocked read returned and the value after editing; a failed read
  // leaves garbage in orig_rec. The failures are the error returns of do_put.
  datatype Event =
    | Get(recNo: nat, read: Record, edited: Record)
    | GetFails(garbage: Record)
    | Put
    | Lock
    | LockFails
    | Reread
    | RereadFails
    | Write
    | WriteFails
    | Unlock
    | Leave

  datatype Move = Move(editor: nat, event: Event)

  predicate HoldsLock(e: Editor) {
    e.phase.Holding? || e.phase.Matching? || e.phase.Written? || e.phase.Conflicted?
  }

  // do_put has begun and has neither written nor returned.
  predicate Saving(e: Editor) {
    e.phase.Locking? || e.phase.Holding? || e.phase.Matching? || e.phase.Conflicted?
  }

  predicate Enabled(s: State, m: Move) {
    m.editor < |s.editors| &&
    var e := s.editors[m.editor];
    match m.event
    case Get(r, _, _) => e.phase.Idle? && r < |s.file|
    case GetFails(_) => e.phase.Idle?
    case Put => e.phase.Idle?
    case Lock => e.phase.Locking? && e.recNo !in s.locks
    case LockFails => e.phase.Locking?
    case Reread => e.phase.Holding? && e.recNo < |s.file|
    case RereadFails => e.phase.Holding?
    case Write => e.phase.Matching? && e.recNo < |s.file|
    case WriteFails => e.phase.Matching?
    case Unlock => e.phase.Written? || e.phase.Conflicted?
    case Leave => !e.phase.Gone?
  }

  // do_put up to its loop.
  function PutBegun(e: Editor): Editor {
    if !e.hasWork then e
    else if e.orig == e.work then e.(hasWork := false)
    else e.(phase := Locking, puts := e.puts + 1, intended := e.work, putConflicts := 0)
  }

  // memcmp of the re-read record with orig_rec.
  function Compared(e: Editor, current: Record): Editor {
    if current == e.orig then e.(phase := Matching)
    else e.(phase := Conflicted, orig := current, work := current,
            putConflicts := e.putConflicts + 1, conflicts := e.conflicts + 1)
  }

  function NextEditor(s: State, m: Move): Editor
    requires Enabled(s, m)
  {
    var e := s.editors[m.editor];
    match m.event
    case Get(r, v, w) =>
      e.(orig := v, work := w, recNo := r, hasWork := true, conflicts := 0,
         misreads := if v == s.file[r] then 0 else 1, since := |s.log|)
    case GetFails(g) => e.(orig := g, misreads := if g == e.orig then e.misreads else e.misreads + 1)
    case Put => PutBegun(e)
    case Lock => e.(phase := Holding)
    case LockFails => e.(phase := Idle)
    case Reread => Compared(e, s.file[e.recNo])
    case RereadFails => e.(phase := Idle)
    case Write => e.(phase := Written)
    case WriteFails => e.(phase := Idle)
    case Unlock => if e.phase.Written? then e.(phase := Idle, hasWork := false) else e.(phase := Locking)
    case Leave => e.(phase := Gone)
  }

  function NextLocks(s: State, m: Move): map<nat, nat>
    requires Enabled(s, m)
  {
    var e := s.editors[m.editor];
    if m.event.Lock? then s.locks[e.recNo := m.editor]
    else if HoldsLock(e) && !HoldsLock(NextEditor(s, m)) then s.locks - {e.recNo}
    else s.locks
  }

  function CommitOf(e: Editor, t: nat): Commit {
    Commit(t, e.puts, e.recNo, e.orig, e.work, e.intended, e.putConflicts)
  }

  function Next(s: State, m: Move): State
    requires Enabled(s, m)
  {
    var e := s.editors[m.editor];
    var s1 := s.(editors := s.editors[m.editor := NextEditor(s, m)], locks := NextLocks(s, m));
    if m.event.Write? then s1.(file := s.file[e.recNo := e.work], log := s.log + [CommitOf(e, m.editor)]) else s1
  }

  // A record's value after the writes in the log.
  function ValueAfter(file0: seq<Record>, log: seq<Commit>, r: nat): Record
    requires r < |file0|
  {
    if log == [] then file0[r]
    else
      var last := log[|log| - 1];
      if last.recNo == r then last.value else ValueAfter(file0, log[..|log| - 1], r)
  }

  // Every write was based on the value it replaced, and nothing else has changed the file.
  ghost predicate Chain(file0: seq<Record>, log: seq<Commit>, file: seq<Record>) {
    && |file| == |file0|
    && (forall j :: 0 <= j < |log| ==> log[j].recNo < |file0| && log[j].base == ValueAfter(file0, log[..j], log[j].recNo))
    && forall r :: 0 <= r < |file| ==> file[r] == ValueAfter(file0, log, r)
  }

  // The commits by other processes that gave the record a new value.
  function ChangesByOthers(log: seq<Commit>, t: nat, r: nat): nat {
    if log == [] then 0
    else
      var last := log[|log| - 1];
      ChangesByOthers(log[..|log| - 1], t, r) + if last.editor != t && last.recNo == r && last.base != last.value then 1 else 0
  }

  // What one process knows of the file, and of its edit.
  predicate EditInv(file: seq<Record>, e: Editor) {
    && (e.hasWork ==> e.recNo < |file|)
    && (Saving(e) || e.phase.Written? ==> e.hasWork)
    && (e.phase.Matching? ==> file[e.recNo] == e.orig)
    && (e.phase.Conflicted? ==> e.putConflicts > 0)
    && (Saving(e) && e.putConflicts == 0 ==> e.work == e.intended != e.orig)
    && (Saving(e) && e.putConflicts > 0 ==> e.work == e.orig)
  }

  // Each conflict met, or about to be met, has its cause.
  predicate ConflictInv(file: seq<Record>, log: seq<Commit>, e: Editor, t: nat)
    requires e.hasWork ==> e.recNo < |file|
  {
    && e.since <= |log|
    && (e.hasWork && !e.phase.Written? && !e.phase.Gone? ==>
          e.conflicts + (if file[e.recNo] == e.orig then 0 else 1) <= ChangesByOthers(log[e.since..], t, e.recNo) + e.misreads)
  }

  predicate EditorInv(file: seq<Record>, log: seq<Commit>, e: Editor, t: nat) {
    EditInv(file, e) && ConflictInv(file, log, e, t)
  }

  // A put call that met no conflict wrote the edit, a conflicted one what was already there.
  predicate CommitInv(c: Commit) {
    && (c.conflicts == 0 ==> c.value == c.intended != c.base)
    && (c.conflicts > 0 ==> c.value == c.base)
  }

  // Commit c is of an earlier put call than any that `e` still has to make.
  predicate Earlier(c: Commit, editors: seq<Editor>) {
    c.editor < |editors| && c.put <= editors[c.editor].puts && (c.put == editors[c.editor].puts ==> !Saving(editors[c.editor]))
  }

  predicate LocksInv(s: State) {
    && (forall t :: 0 <= t < |s.editors| && HoldsLock(s.editors[t]) ==>
          s.editors[t].recNo in s.locks && s.locks[s.editors[t].recNo] == t)
    && forall r :: r in s.locks ==> s.locks[r] < |s.editors| && HoldsLock(s.editors[s.locks[r]]) && s.editors[s.locks[r]].recNo == r
  }

  ghost predicate LogInv(s: State) {
    && (forall j :: 0 <= j < |s.log| ==> CommitInv(s.log[j]) && Earlier(s.log[j], s.editors))
    && forall i, j :: 0 <= i < j < |s.log| ==> s.log[i].editor != s.log[j].editor || s.log[i].put != s.log[j].put
  }

  ghost predicate Inv(file0: seq<Record>, s: State) {
    && Chain(file0, s.log, s.file)
    && LocksInv(s)
    && LogInv(s)
    && forall t :: 0 <= t < |s.editors| ==> EditorInv(s.file, s.log, s.editors[t], t)
  }

  // Processes before their first fetch, whatever their variables hold.
  predicate Initial(s: State) {
    && s.locks == map[] && s.log == []
    && forall t :: 0 <= t < |s.editors| ==> s.editors[t].phase.Idle? && !s.editors[t].hasWork && s.editors[t].since == 0
  }

  lemma InitialInv(s: State)
    requires Initial(s)
    ensures Inv(s.file, s)
  {
  }

  lemma ChainAppend(file0: seq<Record>, log: seq<Commit>, file: seq<Record>, c: Commit)
    requires Chain(file0, log, file) && c.recNo < |file| && c.base == file[c.recNo]
    ensures Chain(file0, log + [c], file[c.recNo := c.value])
  {
    var log' := log + [c];
    assert log'[..|log|] == log;
    forall j | 0 <= j < |log'|
      ensures log'[j].recNo < |file0| && log'[j].base == ValueAfter(file0, log'[..j], log'[j].recNo)
    {
      if j < |log| {
        assert log'[..j] == log[..j] && log'[j] == log[j];
      }
    }
    forall r | 0 <= r < |file| ensures file[c.recNo := c.value][r] == ValueAfter(file0, log', r) {
      assert log'[..|log'| - 1] == log && log'[|log'| - 1] == c;
    }
  }

  lemma {:induction false} ChangesAppend(log: seq<Commit>, since: nat, c: Commit, t: nat, r: nat)
    requires since <= |log|
    ensures ChangesByOthers((log + [c])[since..], t, r) ==
            ChangesByOthers(log[since..], t, r) + if c.editor != t && c.recNo == r && c.base != c.value then 1 else 0
  {
    var tail := (log + [c])[since..];
    assert tail == log[since..] + [c] && tail[..|tail| - 1] == log[since..];
  }

  // Who holds which lock.
  lemma LocksKept(s: State, m: Move)
    requires LocksInv(s) && Enabled(s, m)
    ensures LocksInv(Next(s, m))
  {
    var e := s.editors[m.editor];
    assert m.event.Unlock? && e.phase.Written? ==> HoldsLock(e);
    if HoldsLock(e) {
      assert s.locks[e.recNo] == m.editor;
      assert NextEditor(s, m).recNo == e.recNo;
    }
  }

  // The process that moves, when it does not write.
  lemma OwnMove(file0: seq<Record>, s: State, m: Move)
    requires Inv(file0, s) && Enabled(s, m) && !m.event.Write?
    ensures EditorInv(s.file, s.log, NextEditor(s, m), m.editor)
  {
    assert EditorInv(s.file, s.log, s.editors[m.editor], m.editor);
    OwnEdit(s, m);
    OwnConflicts(s, m);
  }

  lemma OwnEdit(s: State, m: Move)
    requires Enabled(s, m) && EditInv(s.file, s.editors[m.editor])
    ensures EditInv(s.file, NextEditor(s, m))
  {
  }

  lemma OwnConflicts(s: State, m: Move)
    requires Enabled(s, m) && !m.event.Write? && EditorInv(s.file, s.log, s.editors[m.editor], m.editor) && EditInv(s.file, NextEditor(s, m))
    ensures ConflictInv(s.file, s.log, NextEditor(s, m), m.editor)
  {
    var e, e' := s.editors[m.editor], NextEditor(s, m);
    if m.event.Get? {
      assert s.log[e'.since..] == [];
    } else {
      assert e'.since == e.since && e'.recNo == e.recNo;
      assert e'.hasWork ==> e.hasWork;
    }
  }

  // The process that writes.
  lemma OwnWrite(file0: seq<Record>, s: State, m: Move)
    requires Inv(file0, s) && Enabled(s, m) && m.event.Write?
    ensures EditorInv(Next(s, m).file, Next(s, m).log, NextEditor(s, m), m.editor)
  {
    assert EditorInv(s.file, s.log, s.editors[m.editor], m.editor);
  }

  // While a process holds the lock of a record no other process writes the record.
  lemma OthersDoNotWrite(s: State, m: Move, t: nat)
    requires LocksInv(s) && Enabled(s, m) && t < |s.editors| && t != m.editor
    requires HoldsLock(s.editors[t]) && s.editors[t].recNo < |s.file|
    ensures Next(s, m).file[s.editors[t].recNo] == s.file[s.editors[t].recNo]
  {
    assert s.locks[s.editors[t].recNo] == t;
  }

  // A process that looks on while another one writes.
  lemma OthersWrite(file0: seq<Record>, s: State, m: Move, t: nat)
    requires Inv(file0, s) && Enabled(s, m) && m.event.Write? && t < |s.editors| && t != m.editor
    ensures EditorInv(Next(s, m).file, Next(s, m).log, s.editors[t], t)
  {
    var w, e := s.editors[m.editor], s.editors[t];
    assert EditorInv(s.file, s.log, w, m.editor) && EditorInv(s.file, s.log, e, t);
    ChangesAppend(s.log, e.since, CommitOf(w, m.editor), t, e.recNo);
    if HoldsLock(e) {
      OthersDoNotWrite(s, m, t);
    }
  }

  lemma LogKept(file0: seq<Record>, s: State, m: Move)
    requires Inv(file0, s) && Enabled(s, m)
    ensures LogInv(Next(s, m))
  {
    forall j | 0 <= j < |s.log| ensures CommitInv(s.log[j]) && Earlier(s.log[j], Next(s, m).editors) {
      EarlierKept(s, m, s.log[j]);
    }
    if m.event.Write? {
      NewCommit(file0, s, m);
      LogAppended(s, Next(s, m), CommitOf(s.editors[m.editor], m.editor));
    }
  }

  lemma LogAppended(s: State, s': State, c: Commit)
    requires LogInv(s) && s'.log == s.log + [c] && CommitInv(c) && Earlier(c, s'.editors)
    requires forall j :: 0 <= j < |s.log| ==> Earlier(s.log[j], s'.editors)
    requires forall j :: 0 <= j < |s.log| ==> s.log[j].editor != c.editor || s.log[j].put != c.put
    ensures LogInv(s')
  {
  }

  // A write is the first of its put call.
  lemma NewCommit(file0: seq<Record>, s: State, m: Move)
    requires Inv(file0, s) && Enabled(s, m) && m.event.Write?
    ensures var c := CommitOf(s.editors[m.editor], m.editor);
      && CommitInv(c) && Earlier(c, Next(s, m).editors)
      && forall j :: 0 <= j < |s.log| ==> s.log[j].editor != c.editor || s.log[j].put != c.put
  {
    assert EditInv(s.file, s.editors[m.editor]) by {
      assert EditorInv(s.file, s.log, s.editors[m.editor], m.editor);
    }
    forall j | 0 <= j < |s.log| ensures s.log[j].editor != m.editor || s.log[j].put != s.editors[m.editor].puts {
      assert Earlier(s.log[j], s.editors);
    }
  }

  lemma EarlierKept(s: State, m: Move, c: Commit)
    requires Enabled(s, m) && Earlier(c, s.editors)
    ensures Earlier(c, Next(s, m).editors)
  {
  }

  lemma NextInv(file0: seq<Record>, s: State, m: Move)
    requires Inv(file0, s) && Enabled(s, m)
    ensures Inv(file0, Next(s, m))
  {
    var e, s' := s.editors[m.editor], Next(s, m);
    assert EditorInv(s.file, s.log, e, m.editor);
    LocksKept(s, m);
    LogKept(file0, s, m);
    if m.event.Write? {
      ChainAppend(file0, s.log, s.file, CommitOf(e, m.editor));
      OwnWrite(file0, s, m);
    } else {
      OwnMove(file0, s, m);
    }
    forall t | 0 <= t < |s'.editors| ensures EditorInv(s'.file, s'.log, s'.editors[t], t) {
      assert EditorInv(s.file, s.log, s.editors[t], t);
      if t != m.editor && m.event.Write? {
        OthersWrite(file0, s, m, t);
      }
    }
  }

  ghost predicate Steps(s: State, s': State) {
    exists m {:trigger Enabled(s, m)} :: Enabled(s, m) && s' == Next(s, m)
  }

  // The states of a run: any moves of any processes in any order.
  ghost predicate IsRun(run: seq<State>) {
    && |run| > 0 && Initial(run[0])
    && forall i :: 0 < i < |run| ==> Steps(run[i - 1], run[i])
  }

  lemma RunInv(run: seq<State>, i: nat)
    requires IsRun(run) && i < |run|
    ensures Inv(run[0].file, run[i])
  {
    var file0 := run[0].file;
    InitialInv(run[0]);
    forall s, s' | Inv(file0, s) && Steps(s, s') ensures Inv(file0, s') {
      var m :| Enabled(s, m) && s' == Next(s, m);
      NextInv(file0, s, m);
    }
    Kept(run, Steps, s => Inv(file0, s), 0, i);
  }

  // No lost update: whatever the unlocked reads returned, the writes to a record form a chain in
  // which each was made on the basis of the value it replaced, and the file holds the last.
  lemma NoLostUpdate(run: seq<State>, now: nat, s: State)
    requires IsRun(run) && now < |run| && s == run[now]
    ensures Chain(run[0].file, s.log, s.file)
    ensures forall i, j :: 0 <= i < j < |s.log| && s.log[i].recNo == s.log[j].recNo &&
              (forall k :: i < k < j ==> s.log[k].recNo != s.log[j].recNo)
              ==> s.log[j].base == s.log[i].value
  {
    RunInv(run, now);
    forall i, j | 0 <= i < j < |s.log| && s.log[i].recNo == s.log[j].recNo && (forall k :: i < k < j ==> s.log[k].recNo != s.log[j].recNo)
      ensures s.log[j].base == s.log[i].value
    {
      LastWriteCounts(run[0].file, s.log[..j], i, s.log[j].recNo);
    }
  }

  lemma {:induction false} LastWriteCounts(file0: seq<Record>, log: seq<Commit>, i: nat, r: nat)
    requires r < |file0| && i < |log| && log[i].recNo == r && forall k :: i < k < |log| ==> log[k].recNo != r
    ensures ValueAfter(file0, log, r) == log[i].value
  {
    if i < |log| - 1 {
      LastWriteCounts(file0, log[..|log| - 1], i, r);
    }
  }

  // A put call writes at most once. It gives the record a new value exactly if it met no conflict,
  // and then it is the edit; after a conflict it writes what the record already holds, so the edit
  // is stored only if someone else had stored the same value.
  lemma PutsChangeOnce(run: seq<State>, now: nat, s: State)
    requires IsRun(run) && now < |run| && s == run[now]
    ensures forall i, j :: 0 <= i < j < |s.log| ==> s.log[i].editor != s.log[j].editor || s.log[i].put != s.log[j].put
    ensures forall c :: c in s.log ==>
              && (c.value != c.base <==> c.conflicts == 0)
              && (c.value == c.intended <==> c.conflicts == 0 || c.base == c.intended)
  {
    RunInv(run, now);
    forall c | c in s.log ensures CommitInv(c) {
      var j :| 0 <= j < |s.log| && s.log[j] == c;
    }
  }

  // The retries end: the conflicts since a fetch number at most the commits by which others have
  // changed the record since, plus one for each read that did not return the record's value.
  lemma {:induction false} ConflictsBounded(run: seq<State>, now: nat, s: State, t: nat)
    requires IsRun(run) && now < |run| && s == run[now] && t < |s.editors| && s.editors[t].hasWork && (Saving(s.editors[t]) || s.editors[t].phase.Idle?)
    ensures var e := s.editors[t];
      e.since <= |s.log| && e.conflicts <= ChangesByOthers(s.log[e.since..], t, e.recNo) + e.misreads
  {
    RunInv(run, now);
    assert EditorInv(s.file, s.log, s.editors[t], t);
  }

  // At most one process is between locking and unlocking a record, and if its comparison
  // succeeded the record still holds the value it compared.
  lemma LockExcludes(run: seq<State>, now: nat, s: State, t: nat, u: nat)
    requires IsRun(run) && now < |run| && s == run[now] && t < |s.editors| && u < |s.editors| && HoldsLock(s.editors[t])
    ensures HoldsLock(s.editors[u]) && s.editors[u].recNo == s.editors[t].recNo ==> t == u
    ensures s.editors[t].phase.Matching? ==> s.editors[t].recNo < |s.file| && s.file[s.editors[t].recNo] == s.editors[t].orig
  {
    RunInv(run, now);
    assert EditorInv(s.file, s.log, s.editors[t], t);
  }

  // A process that leaves or is killed, wherever it is, frees the lock it holds and changes no record.
  lemma LeavingFreesLock(run: seq<State>, now: nat, s: State, t: nat)
    requires IsRun(run) && now < |run| && s == run[now] && t < |s.editors| && HoldsLock(s.editors[t])
    ensures Enabled(s, Move(t, Leave))
    ensures var s' := Next(s, Move(t, Leave));
      && s'.file == s.file && s'.log == s.log && s'.locks == map r | r in s.locks && s.locks[r] != t :: s.locks[r]
  {
    RunInv(run, now);
    OneLock(s, t);
  }

  lemma OneLock(s: State, t: nat)
    requires LocksInv(s) && t < |s.editors| && HoldsLock(s.editors[t])
    ensures s.locks - {s.editors[t].recNo} == map r | r in s.locks && s.locks[r] != t :: s.locks[r]
  {
    assert s.locks[s.editors[t].recNo] == t;
  }

  // An error may strike at any access, whoever holds which lock. It ends the put call, frees the
  // record if the process had locked it, and keeps the edit for another call.
  lemma ErrorsEndPut(run: seq<State>, now: nat, s: State, t: nat)
    requires IsRun(run) && now < |run| && s == run[now] && t < |s.editors|
    requires s.editors[t].phase.Locking? || s.editors[t].phase.Holding? || s.editors[t].phase.Matching?
    ensures exists s' :: Steps(s, s') && s'.file == s.file && s'.log == s.log
                      && s'.editors == s.editors[t := s.editors[t].(phase := Idle)]
                      && s'.locks == map r | r in s.locks && s.locks[r] != t :: s.locks[r]
  {
    RunInv(run, now);
    ErrorEnds(s, t);
  }

  lemma ErrorEnds(s: State, t: nat)
    requires LocksInv(s) && t < |s.editors|
    requires s.editors[t].phase.Locking? || s.editors[t].phase.Holding? || s.editors[t].phase.Matching?
    ensures exists s' :: Steps(s, s') && s'.file == s.file && s'.log == s.log
                      && s'.editors == s.editors[t := s.editors[t].(phase := Idle)]
                      && s'.locks == map r | r in s.locks && s.locks[r] != t :: s.locks[r]
  {
    var m := Move(t, if s.editors[t].phase.Locking? then LockFails else if s.editors[t].phase.Holding? then RereadFails else WriteFails);
    assert Enabled(s, m) && Steps(s, Next(s, m));
    if HoldsLock(s.editors[t]) {
      OneLock(s, t);
    } else {
      assert s.locks == map r | r in s.locks && s.locks[r] != t :: s.locks[r];
    }
  }

  // Some process inside do_put can always go on without an error.
  lemma SomePutGoesOn(run: seq<State>, now: nat, s: State, t: nat) returns (m: Move)
    requires IsRun(run) && now < |run| && s == run[now] && t < |s.editors| && (Saving(s.editors[t]) || s.editors[t].phase.Written?)
    ensures Enabled(s, m) && (m.event.Lock? || m.event.Reread? || m.event.Write? || m.event.Unlock?)
  {
    RunInv(run, now);
    var e := s.editors[t];
    if e.phase.Locking? && e.recNo in s.locks {
      var u := s.locks[e.recNo];
      m := HolderGoesOn(run[0].file, s, u);
    } else if e.phase.Locking? {
      m := Move(t, Lock);
    } else {
      m := HolderGoesOn(run[0].file, s, t);
    }
  }

  lemma HolderGoesOn(file0: seq<Record>, s: State, t: nat) returns (m: Move)
    requires Inv(file0, s) && t < |s.editors| && HoldsLock(s.editors[t])
    ensures Enabled(s, m) && (m.event.Reread? || m.event.Write? || m.event.Unlock?)
  {
    assert EditorInv(s.file, s.log, s.editors[t], t);
    m := Move(t, if s.editors[t].phase.Holding? then Reread else if s.editors[t].phase.Matching? then Write else Unlock);
  }
}

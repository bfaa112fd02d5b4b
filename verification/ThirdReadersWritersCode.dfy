/** The functions of the third readers-writers solution, run by one thread `t` while other threads
    interfere.  Every operation is a step of the transition system.  An `acquire` waits while others run;
    if it cannot be granted when they pause, the function returns, blocked there. */
module ThirdReadersWritersCode {
  import opened Options
  import opened Runs
  import opened ThirdReadersWriters

  /** `later` continues `run` with steps of threads other than `t`. */
  ghost predicate Others(run: Run<State>, later: Run<State>, t: nat) {
    later == run || (later.Then? && Others(run, later.before, t) && StepOfOther(later.before.s, later.s, t))
  }

  ghost predicate StepOfOther(s: State, s': State, t: nat) {
    exists u :: u != t && Next(s, s', u)
  }

  /** Thread `t` stands where it did. */
  ghost predicate Kept(s: State, s': State, t: nat) {
    && t < |s.threads| == |s'.threads| && |s.values| == |s'.values| == |s.threads|
    && s'.threads[t] == s.threads[t] && s'.values[t] == s.values[t]
  }

  lemma KeptNext(s: State, s': State, t: nat, u: nat)
    requires Next(s, s', u) && u != t && t < |s.threads| == |s.values|
    ensures Kept(s, s', t)
  {
    hide Following;
  }

  lemma {:induction false} OthersKeep(run: Run<State>, later: Run<State>, t: nat)
    requires IsRun(run) && Others(run, later, t) && t < |run.s.threads| == |run.s.values|
    ensures IsRun(later) && Kept(run.s, later.s, t) && Acts(later, t) == Acts(run, t)
    decreases later
  {
    hide Next;
    if later != run {
      OthersKeep(run, later.before, t);
      var u :| u != t && Next(later.before.s, later.s, u);
      KeptNext(later.before.s, later.s, t, u);
    }
  }

  /** What a thread has done so far with the data. */
  datatype Act = Wrote(v: int) | Took(found: Option<int>)

  function Front(data: seq<int>): Option<int> {
    if data == [] then None else Some(data[0])
  }

  function DoneAt(pc: PC, data: seq<int>, v: int): seq<Act> {
    match pc
    case Write => [Wrote(v)]
    case Read => [Took(Front(data))]
    case _ => []
  }

  lemma OnlyDataCounts(pc: PC)
    requires Code(pc) != Push && Code(pc) != Pop
    ensures forall data, v :: DoneAt(pc, data, v) == []
  {
  }

  lemma MovesOn(readCount: int)
    ensures Following(Write, readCount) != Write && Following(Read, readCount) != Read
  {
  }

  function ActOf(s: State, s': State, t: nat): seq<Act> {
    if t < |s.threads| == |s.values| && t < |s'.threads| && s'.threads[t] != s.threads[t] then
      DoneAt(s.threads[t], s.sh.data, s.values[t])
    else
      []
  }

  function Acts(run: Run<State>, t: nat): seq<Act> {
    match run
    case Start(_) => []
    case Then(before, s) => Acts(before, t) + ActOf(before.s, s, t)
  }

  /** Between `start` and `run` thread `t` stood at the read, and `found` was the front of the data. */
  ghost predicate FoundAt(start: Run<State>, run: Run<State>, t: nat, found: Option<int>) {
    exists r: Run<State> :: Continues(start, r) && Continues(r, run)
                            && t < |r.s.threads| && r.s.threads[t] == Read && found == Front(r.s.sh.data)
  }

  lemma {:induction false} TookFound(start: Run<State>, run: Run<State>, t: nat, found: Option<int>)
    requires Continues(start, run) && Acts(run, t) == Acts(start, t) + [Took(found)]
    ensures FoundAt(start, run, t, found)
    decreases run
  {
    assert run != start;
    var act := ActOf(run.before.s, run.s, t);
    if act == [] {
      TookFound(start, run.before, t, found);
      var r: Run<State> :| Continues(start, r) && Continues(r, run.before)
                           && t < |r.s.threads| && r.s.threads[t] == Read && found == Front(r.s.sh.data);
      assert Continues(r, run);
    } else {
      assert Acts(run, t)[|Acts(run, t)| - 1] == act[0] == Took(found);
      var r := run.before;
      assert Continues(r, r) && Continues(r, run);
    }
  }

  /** What each operation does, one by one. */
  lemma Effects(sh: Shared, x: Sem, t: nat, v: int)
    ensures Get(sh.sems, x) > 0 ==> Enabled(sh, Acquire(x), t)
    ensures Get(sh.sems, x) > 0 ==>
              Effect(sh, Acquire(x), t, v) == sh.(sems := Set(sh.sems, x, Get(sh.sems, x) - 1))
    ensures Enabled(sh, Release(x), t)
    ensures Effect(sh, Release(x), t, v) == sh.(sems := Set(sh.sems, x, Get(sh.sems, x) + 1))
  {
  }

  lemma LineEffects(sh: Shared, t: nat, v: int)
    ensures Enabled(sh, Arrive, t) && Effect(sh, Arrive, t, v) == sh.(line := sh.line + [t], arrived := sh.arrived + [t])
    ensures sh.service > 0 && sh.line != [] && sh.line[0] == t ==>
              Enabled(sh, Admit, t)
              && Effect(sh, Admit, t, v)
                 == sh.(service := sh.service - 1, line := sh.line[1..], admitted := sh.admitted + [t])
    ensures Enabled(sh, NextInLine, t) && Effect(sh, NextInLine, t, v) == sh.(service := sh.service + 1)
  {
  }

  lemma HistoryNext(s: State, s': State, u: nat)
    requires Next(s, s', u)
    ensures s.sh.written <= s'.sh.written && s.sh.taken <= s'.sh.taken && s.sh.admitted <= s'.sh.admitted
  {
    hide Following;
  }

  lemma {:induction false} HistoryGrows(run: Run<State>, later: Run<State>)
    requires IsRun(later) && Continues(run, later)
    ensures run.s.sh.written <= later.s.sh.written && run.s.sh.taken <= later.s.sh.taken
    ensures run.s.sh.admitted <= later.s.sh.admitted
    decreases later
  {
    hide Next;
    if later != run {
      HistoryGrows(run, later.before);
      var u :| Next(later.before.s, later.s, u);
      HistoryNext(later.before.s, later.s, u);
    }
  }

  lemma GrewHistory(run: Run<State>, later: Run<State>)
    requires IsRun(later) && Grew(run, later)
    ensures run.s.sh.written <= later.s.sh.written && run.s.sh.taken <= later.s.sh.taken
    ensures run.s.sh.admitted <= later.s.sh.admitted
  {
    assert Continues(run, run);
    HistoryGrows(run, later);
  }

  lemma Wider(from: seq<int>, mid: seq<int>, taken: seq<int>, later: seq<int>, v: int)
    requires from <= mid && taken <= later && exists i :: |mid| <= i < |taken| && taken[i] == v
    ensures exists i :: |from| <= i < |later| && later[i] == v
  {
    var i :| |mid| <= i < |taken| && taken[i] == v;
    assert later[i] == v;
  }

  /** Nobody else writes, and nobody reads. */
  ghost predicate Alone(s: State, t: nat) {
    forall u :: 0 <= u < |s.threads| && u != t ==> !Writing(s.threads[u]) && !Reading(s.threads[u])
  }

  lemma WriterAlone(run: Run<State>, t: nat)
    requires IsRun(run) && t < |run.s.threads| && run.s.threads[t] == WriteLock
    ensures Alone(run.s, t)
  {
    hide IsRun;
    forall u | 0 <= u < |run.s.threads| && u != t ensures !Writing(run.s.threads[u]) && !Reading(run.s.threads[u]) {
      Exclusion(run, t, u);
    }
  }

  lemma NoWriter(run: Run<State>, t: nat)
    requires IsRun(run) && t < |run.s.threads| && run.s.threads[t] == ReadLock
    ensures forall u :: 0 <= u < |run.s.threads| ==> !Writing(run.s.threads[u])
  {
    hide IsRun;
    forall u | 0 <= u < |run.s.threads| ensures !Writing(run.s.threads[u]) {
      if Writing(run.s.threads[u]) {
        Exclusion(run, u, t);
      }
    }
  }

  class ThirdSolution {
    var sems: Sems
    var service: nat                       // serviceQueue
    var line: seq<nat>                     // the threads that wait for it
    var readCount: int
    var data: seq<int>
    ghost var run: Run<State>

    /** Thread `t`, called with the value `v` if it is a writer, is at `pc`. */
    ghost predicate Ready(t: nat, pc: PC, v: int)
      reads this
    {
      && IsRun(run) && t < |run.s.threads| == |run.s.values|
      && run.s.sh.sems == sems && run.s.sh.service == service && run.s.sh.line == line
      && run.s.sh.readCount == readCount && run.s.sh.data == data && run.s.threads[t] == pc && run.s.values[t] == v
    }

    /** What thread `t` has done so far with the data. */
    ghost function Did(t: nat): seq<Act>
      reads this`run
    {
      Acts(run, t)
    }

    /** The operation at `pc` cannot be performed now. */
    ghost predicate Shut(t: nat, pc: PC)
      reads this
    {
      match Code(pc)
      case Acquire(x) => Get(sems, x) == 0
      case Admit => service == 0 || (line != [] && line[0] != t)
      case _ => false
    }

    constructor (ghost threads: nat)
      ensures forall t :: 0 <= t < threads ==> Ready(t, Idle, 0)
    {
      sems := Sems(1, 1, 1, 1);
      service, line, readCount, data := 1, [], 0, [];
      run := Start(State(Shared(Sems(1, 1, 1, 1), 1, [], 0, [], [], [], [], []),
                         seq(threads, _ => Idle), seq(threads, _ => 0), []));
    }

    ghost method Commit(t: nat, s': State)
      requires IsRun(run) && Next(run.s, s', t)
      modifies this`run
      ensures IsRun(run) && run.s == s' && Grew(old(run), run)
      ensures Did(t) == old(Did(t)) + ActOf(old(run.s), s', t)
    {
      run := Then(run, s');
    }

    /** Other threads run for any finite number of steps. */
    method Interfere(ghost t: nat, ghost pc: PC, ghost v: int)
      requires Ready(t, pc, v)
      modifies this
      ensures Ready(t, pc, v) && Others(old(run), run, t) && Grew(old(run), run)
      ensures Did(t) == old(Did(t))
    {
      OthersKeep(run, run, t);
    }

    /** Thread `t` performs the operation at `pc`; the fields follow. */
    ghost method Move(t: nat, pc: PC, v: int)
      requires Ready(t, pc, v) && pc != Idle && Enabled(run.s.sh, Code(pc), t)
      modifies this`run
      ensures IsRun(run) && Grew(old(run), run) && t < |run.s.threads| == |run.s.values|
      ensures run.s.sh == Effect(old(run.s.sh), Code(pc), t, v) && run.s.values == old(run.s.values)
      ensures run.s.threads[t] == (var sh := run.s.sh; Following(pc, sh.readCount))
      ensures Did(t) == old(Did(t)) + DoneAt(pc, old(run.s.sh.data), v)
    {
      MovesOn(Effect(run.s.sh, Code(pc), t, v).readCount);
      hide IsRun, Code, Following, Effect, Enabled, Continues, Entering;
      Commit(t, Moved(run.s, t));
    }

    method TryAcquire(x: Sem, ghost t: nat, ghost pc: PC, ghost v: int) returns (ok: bool)
      requires Ready(t, pc, v) && Code(pc) == Instr.Acquire(x)
      modifies this`run, this`sems
      ensures Ready(t, if ok then Following(pc, readCount) else pc, v) && Grew(old(run), run)
      ensures (ok <==> Get(old(sems), x) > 0) && (!ok ==> sems == old(sems))
      ensures Did(t) == old(Did(t))
    {
      assert Code(Idle) == Nop;
      OnlyDataCounts(pc);
      hide DoneAt, Acts, Did, IsRun, Others, Following, Code, Continues, Grew, Effect, Enabled, Get, Set, Weight, Total, Nested, Good;
      ok := Get(sems, x) > 0;
      if ok {
        Effects(run.s.sh, x, t, v);
        Move(t, pc, v);
        sems := Set(sems, x, Get(sems, x) - 1);
      }
    }

    method Acquire(x: Sem, ghost t: nat, ghost pc: PC, ghost v: int) returns (ok: bool)
      requires Ready(t, pc, v) && Code(pc) == Instr.Acquire(x)
      modifies this
      ensures Ready(t, if ok then Following(pc, readCount) else pc, v) && Grew(old(run), run)
      ensures !ok ==> Shut(t, pc)
      ensures Did(t) == old(Did(t))
    {
      hide IsRun, Others, Following, Code, Continues, Get, Ready, Did;
      Interfere(t, pc, v);
      ok := TryAcquire(x, t, pc, v);
    }

    method ReleaseNow(x: Sem, ghost t: nat, ghost pc: PC, ghost v: int)
      requires Ready(t, pc, v) && Code(pc) == Instr.Release(x)
      modifies this`run, this`sems
      ensures Ready(t, Following(pc, readCount), v) && Grew(old(run), run)
      ensures Did(t) == old(Did(t))
    {
      assert Code(Idle) == Nop;
      OnlyDataCounts(pc);
      hide DoneAt, Acts, Did, IsRun, Others, Following, Code, Continues, Grew, Effect, Enabled, Get, Set, Weight, Total, Nested, Good;
      Effects(run.s.sh, x, t, v);
      Move(t, pc, v);
      sems := Set(sems, x, Get(sems, x) + 1);
    }

    method Release(x: Sem, ghost t: nat, ghost pc: PC, ghost v: int)
      requires Ready(t, pc, v) && Code(pc) == Instr.Release(x)
      modifies this
      ensures Ready(t, Following(pc, readCount), v) && Grew(old(run), run)
      ensures Did(t) == old(Did(t))
    {
      hide IsRun, Others, Following, Code, Continues, Ready, Did;
      Interfere(t, pc, v);
      ReleaseNow(x, t, pc, v);
    }

    method JoinLine(t: nat, ghost pc: PC, ghost v: int)
      requires Ready(t, pc, v) && Code(pc) == Instr.Arrive
      modifies this`run, this`line
      ensures Ready(t, Following(pc, readCount), v) && Grew(old(run), run)
      ensures line == old(line) + [t]
      ensures Did(t) == old(Did(t))
    {
      assert Code(Idle) == Nop;
      OnlyDataCounts(pc);
      hide DoneAt, Acts, Did, IsRun, Others, Following, Code, Continues, Grew, Effect, Enabled, Get, Set, Weight, Total, Nested, Good;
      LineEffects(run.s.sh, t, v);
      Move(t, pc, v);
      line := line + [t];
    }

    /** The first half of `serviceQueue.acquire()`: stand in line. */
    method Arrive(t: nat, ghost pc: PC, ghost v: int)
      requires Ready(t, pc, v) && Code(pc) == Instr.Arrive
      modifies this
      ensures Ready(t, Following(pc, readCount), v) && Grew(old(run), run)
      ensures line != [] && line[|line| - 1] == t
      ensures Did(t) == old(Did(t))
    {
      hide IsRun, Others, Following, Code, Continues, Ready, Did;
      Interfere(t, pc, v);
      JoinLine(t, pc, v);
    }

    method TryAdmit(t: nat, ghost pc: PC, ghost v: int) returns (ok: bool)
      requires Ready(t, pc, v) && Code(pc) == Instr.Admit
      modifies this`run, this`service, this`line
      ensures Ready(t, if ok then Following(pc, readCount) else pc, v) && Grew(old(run), run)
      ensures ok ==> run.s.sh.admitted == old(run.s.sh.admitted) + [t]
      ensures ok <==> old(service) > 0 && old(line) != [] && old(line)[0] == t
      ensures !ok ==> service == old(service) && line == old(line)
      ensures Did(t) == old(Did(t))
    {
      assert Code(Idle) == Nop;
      OnlyDataCounts(pc);
      hide DoneAt, Acts, Did, IsRun, Others, Following, Code, Continues, Grew, Effect, Enabled, Get, Set, Weight, Total, Nested, Good;
      ok := service > 0 && line != [] && line[0] == t;
      if ok {
        LineEffects(run.s.sh, t, v);
        Move(t, pc, v);
        service, line := service - 1, line[1..];
      }
    }

    lemma StandsInLine(t: nat, pc: PC, v: int)
      requires Ready(t, pc, v) && Code(pc) == Instr.Admit
      ensures line != []
    {
      hide IsRun;
      RunInv(run);
      assert InLine(run.s.threads[t]);
    }

    /** The second half: the thread in front goes on when the semaphore is free. */
    method Admit(t: nat, ghost pc: PC, ghost v: int) returns (ok: bool)
      requires Ready(t, pc, v) && Code(pc) == Instr.Admit
      modifies this
      ensures Ready(t, if ok then Following(pc, readCount) else pc, v) && Grew(old(run), run)
      ensures ok ==> run.s.sh.admitted != [] && run.s.sh.admitted[|run.s.sh.admitted| - 1] == t
      ensures !ok ==> Shut(t, pc)
      ensures Did(t) == old(Did(t))
    {
      hide IsRun, Others, Following, Code, Continues, Ready, Did;
      Interfere(t, pc, v);
      ok := TryAdmit(t, pc, v);
      if !ok {
        StandsInLine(t, pc, v);
      }
    }

    method FreeQueue(ghost t: nat, ghost pc: PC, ghost v: int)
      requires Ready(t, pc, v) && Code(pc) == Instr.NextInLine
      modifies this`run, this`service
      ensures Ready(t, Following(pc, readCount), v) && Grew(old(run), run)
      ensures service == old(service) + 1
      ensures Did(t) == old(Did(t))
    {
      assert Code(Idle) == Nop;
      OnlyDataCounts(pc);
      hide DoneAt, Acts, Did, IsRun, Others, Following, Code, Continues, Grew, Effect, Enabled, Get, Set, Weight, Total, Nested, Good;
      LineEffects(run.s.sh, t, v);
      Move(t, pc, v);
      service := service + 1;
    }

    /** `serviceQueue.release()`. */
    method NextInLine(ghost t: nat, ghost pc: PC, ghost v: int)
      requires Ready(t, pc, v) && Code(pc) == Instr.NextInLine
      modifies this
      ensures Ready(t, Following(pc, readCount), v) && Grew(old(run), run)
      ensures Did(t) == old(Did(t))
    {
      hide IsRun, Others, Following, Code, Continues, Ready, Did;
      Interfere(t, pc, v);
      FreeQueue(t, pc, v);
    }

    method AddReaders(n: int, ghost t: nat, ghost pc: PC, ghost v: int)
      requires Ready(t, pc, v) && ((pc == CountReader && n == 1) || (pc == UncountReader && n == -1))
      modifies this
      ensures Ready(t, Following(pc, readCount), v) && Grew(old(run), run)
      ensures Did(t) == old(Did(t))
    {
      hide IsRun, Others, Following, Continues;
      Interfere(t, pc, v);
      Move(t, pc, v);
      readCount := readCount + n;
    }

    method PushData(v: int, ghost t: nat)
      requires Ready(t, Write, v)
      modifies this
      ensures Ready(t, WriteUnlock, v) && Grew(old(run), run)
      ensures |old(run.s.sh.written)| < |run.s.sh.written| && run.s.sh.written[|run.s.sh.written| - 1] == v
      ensures Did(t) == old(Did(t)) + [Wrote(v)]
    {
      hide IsRun, Others, Continues;
      Interfere(t, Write, v);
      GrewHistory(old(run), run);
      Move(t, Write, v);
      data := data + [v];
    }

    method PopData(ghost t: nat, ghost v: int) returns (result: Option<int>)
      requires Ready(t, Read, v)
      modifies this
      ensures Ready(t, ReadUnlock, v) && Grew(old(run), run)
      ensures result.Some? ==> |old(run.s.sh.taken)| < |run.s.sh.taken| && run.s.sh.taken[|run.s.sh.taken| - 1] == result.value
      ensures result.None? ==> run.s.sh.taken == run.s.sh.written
      ensures Did(t) == old(Did(t)) + [Took(result)]
    {
      hide IsRun, Others, Continues;
      Interfere(t, Read, v);
      GrewHistory(old(run), run);
      Move(t, Read, v);
      if data != [] {
        result := Some(data[0]);
        data := data[1..];
      } else {
        result := None;
      }
      TakenInOrder(run);
    }

    /* ----- the blocks under `readCountGuard` ----- */

    method CountInReader(ghost t: nat, ghost v: int) returns (blocked: bool, ghost at: PC)
      requires Ready(t, EntryReadGuard, v)
      modifies this
      ensures Ready(t, if blocked then at else ReaderAdmitsNext, v) && Grew(old(run), run)
      ensures blocked ==> Shut(t, at) && !Leaving(at)
      ensures Did(t) == old(Did(t))
    {
      hide IsRun, Continues, Writing, Reading, Weight, Ready, Did;
      var ok := Acquire(ReadCountGuard, t, EntryReadGuard, v);
      if !ok { return true, EntryReadGuard; }
      AddReaders(1, t, CountReader, v);
      if readCount == 1 {
        ok := Acquire(Resource, t, TakeResource, v);
        if !ok { return true, TakeResource; }
      }
      Release(ReadCountGuard, t, EntryReadUnguard, v);
      blocked, at := false, Idle;
    }

    method CountOutReader(ghost t: nat, ghost v: int) returns (blocked: bool, ghost at: PC)
      requires Ready(t, ExitReadGuard, v)
      modifies this
      ensures Ready(t, if blocked then at else ExitRmutexRelease, v) && Grew(old(run), run)
      ensures blocked ==> Shut(t, at) && Leaving(at)
      ensures Did(t) == old(Did(t))
    {
      hide IsRun, Continues, Writing, Reading, Weight, Ready, Did;
      var ok := Acquire(ReadCountGuard, t, ExitReadGuard, v);
      if !ok { return true, ExitReadGuard; }
      AddReaders(-1, t, UncountReader, v);
      if readCount == 0 {
        Release(Resource, t, GiveResource, v);
      }
      Release(ReadCountGuard, t, ExitReadUnguard, v);
      blocked, at := false, Idle;
    }

    /* ----- the functions ----- */

    /** A thread on its way out has done its write or its read. */
    predicate Leaving(pc: PC) {
      pc == ExitRmutex || pc == ExitReadGuard
    }

    /** The counts are the numbers of the threads that have counted themselves in and not yet out. */
    ghost predicate CountsRight()
      reads this
    {
      readCount == Total(run.s.threads).readers
    }

    lemma Counts(t: nat, pc: PC, v: int)
      requires Ready(t, pc, v)
      ensures CountsRight()
    {
      hide IsRun, Total;
      RunInv(run);
    }

    lemma MineAlone(t: nat, v: int)
      requires Ready(t, WriteLock, v)
      ensures Alone(run.s, t)
    {
      hide IsRun, Alone;
      WriterAlone(run, t);
    }

    lemma NobodyWrites(t: nat, v: int)
      requires Ready(t, ReadLock, v)
      ensures forall u :: 0 <= u < |run.s.threads| ==> !Writing(run.s.threads[u])
    {
      hide IsRun, Writing;
      NoWriter(run, t);
    }

    lemma History(past: Run<State>, t: nat, pc: PC, v: int)
      requires Ready(t, pc, v) && Grew(past, run)
      ensures past.s.sh.written <= run.s.sh.written && past.s.sh.taken <= run.s.sh.taken
    {
      hide IsRun;
      GrewHistory(past, run);
    }

    lemma DidIs(t: nat)
      ensures Did(t) == Acts(run, t)
    {
    }

    lemma Found(past: Run<State>, t: nat, found: Option<int>)
      requires Grew(past, run) && Did(t) == Acts(past, t) + [Took(found)]
      ensures FoundAt(past, run, t, found)
    {
      assert Continues(past, past);
      hide FoundAt;
      TookFound(past, run, t, found);
    }

    /** On return the writer has the resource to itself, unless it is blocked at `at`. */
    method StartWrite(t: nat, ghost v: int) returns (blocked: bool, ghost at: PC)
      requires Ready(t, WriterArrives, v)
      modifies this
      ensures Ready(t, if blocked then at else WriteLock, v) && Grew(old(run), run)
      ensures blocked ==> Shut(t, at) && !Leaving(at)
      ensures !blocked ==> Alone(run.s, t)
      ensures Did(t) == old(Did(t))
    {
      hide IsRun, Continues, Writing, Reading, Weight, Alone, Ready, Did;
      Arrive(t, WriterArrives, v);
      var ok := Admit(t, WriterInLine, v);
      if !ok { return true, WriterInLine; }
      ok := Acquire(Resource, t, WaitResource, v);
      if !ok { return true, WaitResource; }
      NextInLine(t, WriterAdmitsNext, v);
      blocked, at := false, Idle;
      MineAlone(t, v);
    }

    ghost method Call(t: nat, v: int, v': int, pc: PC)
      requires Ready(t, Idle, v) && (pc == WriterArrives || (pc == ReaderArrives && v' == v))
      modifies this`run
      ensures Ready(t, pc, v') && Grew(old(run), run)
      ensures run.s.sh == old(run.s.sh)
      ensures Did(t) == old(Did(t))
    {
      hide IsRun;
      var s' := run.s.(threads := run.s.threads[t := pc], values := run.s.values[t := v']);
      assert run.s.values[t := v] == run.s.values;
      Commit(t, s');
    }

    /** The write itself and `endWrite`. */
    method PutBack(value: int, ghost t: nat) returns (blocked: bool)
      requires Ready(t, WriteLock, value)
      modifies this
      ensures Ready(t, if blocked then WriteLock else Idle, value) && Grew(old(run), run)
      ensures !blocked ==> exists i :: |old(run.s.sh.written)| <= i < |run.s.sh.written| && run.s.sh.written[i] == value
      ensures Did(t) == old(Did(t)) + if blocked then [] else [Wrote(value)]
      ensures blocked ==> Shut(t, WriteLock)
    {
      hide IsRun, Continues, Writing, Reading, Weight, Ready, Did;
      var ok := Acquire(DataGuard, t, WriteLock, value);
      if !ok { return true; }
      blocked := false;
      History(old(run), t, Write, value);
      PushData(value, t);
      ghost var pushed := run;
      Release(DataGuard, t, WriteUnlock, value);
      Release(Resource, t, ReleaseResource, value);
      History(pushed, t, Idle, value);
      assert run.s.sh.written[|pushed.s.sh.written| - 1] == value;
    }

    /** A writer that returns has written its value. */
    method Writer(value: int, t: nat, ghost v: int) returns (blocked: bool, ghost at: PC)
      requires Ready(t, Idle, v)
      modifies this
      ensures Ready(t, if blocked then at else Idle, value) && Grew(old(run), run)
      ensures blocked ==> Shut(t, at)
      ensures !blocked ==> exists i :: |old(run.s.sh.written)| <= i < |run.s.sh.written| && run.s.sh.written[i] == value
      ensures Did(t) == old(Did(t)) + if blocked then [] else [Wrote(value)]
    {
      hide IsRun, Continues, Writing, Reading, Weight, Following, Ready, Did;
      Call(t, v, value, WriterArrives);
      blocked, at := StartWrite(t, value);
      if blocked { return; }
      History(old(run), t, WriteLock, value);
      blocked := PutBack(value, t);
      at := if blocked then WriteLock else Idle;
    }

    /** On return no writer is writing, unless the reader is blocked at `at`. */
    method StartRead(t: nat, ghost v: int) returns (blocked: bool, ghost at: PC)
      requires Ready(t, ReaderArrives, v)
      modifies this
      ensures Ready(t, if blocked then at else ReadLock, v) && Grew(old(run), run)
      ensures blocked ==> Shut(t, at) && !Leaving(at)
      ensures !blocked ==> forall u :: 0 <= u < |run.s.threads| ==> !Writing(run.s.threads[u])
      ensures Did(t) == old(Did(t))
    {
      hide IsRun, Continues, Writing, Reading, Weight, Ready, Did;
      Arrive(t, ReaderArrives, v);
      var ok := Admit(t, ReaderInLine, v);
      if !ok { return true, ReaderInLine; }
      ok := Acquire(Rmutex, t, EntryRmutex, v);
      if !ok { return true, EntryRmutex; }
      blocked, at := CountInReader(t, v);
      if blocked { return; }
      NextInLine(t, ReaderAdmitsNext, v);
      Release(Rmutex, t, EntryRmutexRelease, v);
      NobodyWrites(t, v);
    }

    method EndRead(ghost t: nat, ghost v: int) returns (blocked: bool, ghost at: PC)
      requires Ready(t, ExitRmutex, v)
      modifies this
      ensures Ready(t, if blocked then at else Idle, v) && Grew(old(run), run)
      ensures blocked ==> Shut(t, at) && Leaving(at)
      ensures !blocked ==> CountsRight()
      ensures Did(t) == old(Did(t))
    {
      hide IsRun, Continues, Writing, Reading, Weight, Ready, CountsRight, Did;
      var ok := Acquire(Rmutex, t, ExitRmutex, v);
      if !ok { return true, ExitRmutex; }
      blocked, at := CountOutReader(t, v);
      if blocked { return; }
      Release(Rmutex, t, ExitRmutexRelease, v);
      Counts(t, Idle, v);
    }

    /** The read itself, with the value taken at the end of `taken`. */
    method TakeFront(ghost t: nat, ghost v: int) returns (blocked: bool, result: Option<int>)
      requires Ready(t, ReadLock, v)
      modifies this
      ensures Ready(t, if blocked then ReadLock else ExitRmutex, v) && Grew(old(run), run)
      ensures result.Some? ==>
                exists i :: |old(run.s.sh.taken)| <= i < |run.s.sh.taken| && run.s.sh.taken[i] == result.value
      ensures Did(t) == old(Did(t)) + if blocked then [] else [Took(result)]
      ensures blocked ==> result == None
      ensures blocked ==> Shut(t, ReadLock)
    {
      hide IsRun, Continues, Writing, Reading, Weight, Ready, Did;
      var ok := Acquire(DataGuard, t, ReadLock, v);
      if !ok { return true, None; }
      blocked := false;
      History(old(run), t, Read, v);
      result := PopData(t, v);
      ghost var popped := run;
      Release(DataGuard, t, ReadUnlock, v);
      History(popped, t, ExitRmutex, v);
      assert result.Some? ==> run.s.sh.taken[|popped.s.sh.taken| - 1] == result.value;
    }

    /** A reader that returns a value has taken it, from among those written. */
    method Reader(t: nat, ghost v: int) returns (blocked: bool, result: Option<int>, ghost at: PC)
      requires Ready(t, Idle, v)
      modifies this
      ensures Ready(t, if blocked then at else Idle, v) && Grew(old(run), run)
      ensures blocked ==> Shut(t, at)
      ensures result.Some? ==>
                exists i :: |old(run.s.sh.taken)| <= i < |run.s.sh.taken| && run.s.sh.taken[i] == result.value
      ensures Did(t) == old(Did(t)) + if blocked && !Leaving(at) then [] else [Took(result)]
      ensures !blocked || Leaving(at) ==> FoundAt(old(run), run, t, result)
      ensures blocked && !Leaving(at) ==> result == None
    {
      hide IsRun, Continues, Writing, Reading, Weight, Following, Ready, Did, Acts, FoundAt, Shut, Code;
      DidIs(t);
      result := None;
      Call(t, v, v, ReaderArrives);
      blocked, at := StartRead(t, v);
      if blocked { return; }
      History(old(run), t, ReadLock, v);
      ghost var entered := run;
      blocked, result := TakeFront(t, v);
      if blocked { return true, result, ReadLock; }
      ghost var popped := run;
      blocked, at := EndRead(t, v);
      Found(old(run), t, result);
      History(popped, t, if blocked then at else Idle, v);
      if result.Some? {
        Wider(old(run.s.sh.taken), entered.s.sh.taken, popped.s.sh.taken, run.s.sh.taken, result.value);
      }
    }
  }
}

/** The third readers-writers problem: nobody starves, because every reader and writer passes a FIFO
    `serviceQueue` first.  Threads run the code of `writer` and `reader` one operation at a time, in
    any number; waiting for `serviceQueue` is a line of threads served from its front. */
module ThirdReadersWriters {
  import opened Runs

  /** The binary semaphores but for `serviceQueue`, and the two mutexes. */
  datatype Sem = Rmutex | Resource | ReadCountGuard | DataGuard

  datatype Sems = Sems(rmutex: nat, resource: nat, readCountGuard: nat, dataGuard: nat)

  /** `service` is the count of `serviceQueue` and `line` those that wait for it.  `arrived`, `admitted`,
      `written` and `taken` are history. */
  datatype Shared = Shared(sems: Sems, service: nat, line: seq<nat>, readCount: int, data: seq<int>,
                           arrived: seq<nat>, admitted: seq<nat>, written: seq<int>, taken: seq<int>)

  datatype PC =
    | Idle
    // startWrite
    | WriterArrives | WriterInLine | WaitResource | WriterAdmitsNext
    // writer, the write itself, and endWrite
    | WriteLock | Write | WriteUnlock | ReleaseResource
    // startRead
    | ReaderArrives | ReaderInLine | EntryRmutex | EntryReadGuard | CountReader | TakeResource | EntryReadUnguard
    | ReaderAdmitsNext | EntryRmutexRelease
    // reader, the read itself
    | ReadLock | Read | ReadUnlock
    // endRead
    | ExitRmutex | ExitReadGuard | UncountReader | GiveResource | ExitReadUnguard | ExitRmutexRelease

  datatype Instr =
    | Nop | Arrive | Admit | NextInLine
    | Acquire(x: Sem) | Release(x: Sem) | ReadersUp | ReadersDown | Push | Pop

  /** `entered` is history: the threads in the order in which they got `resource`, a reader with its group. */
  datatype State = State(sh: Shared, threads: seq<PC>, values: seq<int>, entered: seq<nat>)

  /** The operation at each program counter. */
  function Code(pc: PC): Instr {
    match pc
    case Idle => Nop
    case WriterArrives => Arrive
    case WriterInLine => Admit
    case WaitResource => Acquire(Resource)
    case WriterAdmitsNext => NextInLine
    case WriteLock => Acquire(DataGuard)
    case Write => Push
    case WriteUnlock => Release(DataGuard)
    case ReleaseResource => Release(Resource)
    case ReaderArrives => Arrive
    case ReaderInLine => Admit
    case EntryRmutex => Acquire(Rmutex)
    case EntryReadGuard => Acquire(ReadCountGuard)
    case CountReader => ReadersUp
    case TakeResource => Acquire(Resource)
    case EntryReadUnguard => Release(ReadCountGuard)
    case ReaderAdmitsNext => NextInLine
    case EntryRmutexRelease => Release(Rmutex)
    case ReadLock => Acquire(DataGuard)
    case Read => Pop
    case ReadUnlock => Release(DataGuard)
    case ExitRmutex => Acquire(Rmutex)
    case ExitReadGuard => Acquire(ReadCountGuard)
    case UncountReader => ReadersDown
    case GiveResource => Release(Resource)
    case ExitReadUnguard => Release(ReadCountGuard)
    case ExitRmutexRelease => Release(Rmutex)
  }

  /** Where a thread goes on, given the count after the operation. */
  function Following(pc: PC, readCount: int): PC {
    match pc
    case Idle => Idle
    case WriterArrives => WriterInLine
    case WriterInLine => WaitResource
    case WaitResource => WriterAdmitsNext
    case WriterAdmitsNext => WriteLock
    case WriteLock => Write
    case Write => WriteUnlock
    case WriteUnlock => ReleaseResource
    case ReleaseResource => Idle
    case ReaderArrives => ReaderInLine
    case ReaderInLine => EntryRmutex
    case EntryRmutex => EntryReadGuard
    case EntryReadGuard => CountReader
    case CountReader => if readCount == 1 then TakeResource else EntryReadUnguard
    case TakeResource => EntryReadUnguard
    case EntryReadUnguard => ReaderAdmitsNext
    case ReaderAdmitsNext => EntryRmutexRelease
    case EntryRmutexRelease => ReadLock
    case ReadLock => Read
    case Read => ReadUnlock
    case ReadUnlock => ExitRmutex
    case ExitRmutex => ExitReadGuard
    case ExitReadGuard => UncountReader
    case UncountReader => if readCount == 0 then GiveResource else ExitReadUnguard
    case GiveResource => ExitReadUnguard
    case ExitReadUnguard => ExitRmutexRelease
    case ExitRmutexRelease => Idle
  }

  function Get(s: Sems, x: Sem): nat {
    match x
    case Rmutex => s.rmutex
    case Resource => s.resource
    case ReadCountGuard => s.readCountGuard
    case DataGuard => s.dataGuard
  }

  function Set(s: Sems, x: Sem, n: nat): Sems {
    match x
    case Rmutex => s.(rmutex := n)
    case Resource => s.(resource := n)
    case ReadCountGuard => s.(readCountGuard := n)
    case DataGuard => s.(dataGuard := n)
  }

  predicate Enabled(sh: Shared, i: Instr, t: nat) {
    && (i.Acquire? ==> Get(sh.sems, i.x) > 0)
    && (i.Admit? ==> sh.service > 0 && sh.line != [] && sh.line[0] == t)
  }

  /** The effect of an operation of thread `t`; `value` is what a writer has to push. */
  function Effect(sh: Shared, i: Instr, t: nat, value: int): Shared
    requires Enabled(sh, i, t)
  {
    match i
    case Nop => sh
    case Arrive => sh.(line := sh.line + [t], arrived := sh.arrived + [t])
    case Admit => sh.(service := sh.service - 1, line := sh.line[1..], admitted := sh.admitted + [t])
    case NextInLine => sh.(service := sh.service + 1)
    case Acquire(x) => sh.(sems := Set(sh.sems, x, Get(sh.sems, x) - 1))
    case Release(x) => sh.(sems := Set(sh.sems, x, Get(sh.sems, x) + 1))
    case ReadersUp => sh.(readCount := sh.readCount + 1)
    case ReadersDown => sh.(readCount := sh.readCount - 1)
    case Push => sh.(data := sh.data + [value], written := sh.written + [value])
    case Pop => if sh.data == [] then sh else sh.(data := sh.data[1..], taken := sh.taken + [sh.data[0]])
  }

  ghost predicate Init(s: State) {
    && s.sh == Shared(Sems(1, 1, 1, 1), 1, [], 0, [], [], [], [], [])
    && (forall t :: 0 <= t < |s.threads| ==> s.threads[t] == Idle) && |s.values| == |s.threads| && s.entered == []
  }

  ghost predicate Begin(s: State, s': State, t: nat) {
    && t < |s.threads| == |s.values| && s.threads[t] == Idle
    && (s' == s.(threads := s.threads[t := ReaderArrives])
        || (|s'.values| == |s.values|
            && s' == s.(threads := s.threads[t := WriterArrives], values := s.values[t := s'.values[t]])))
  }

  /** Admitted by `serviceQueue`, and not yet in possession of `resource`. */
  predicate Entering(pc: PC) {
    pc.WaitResource? || pc.EntryRmutex? || pc.EntryReadGuard? || pc.CountReader? || pc.TakeResource?
  }

  /** Thread `t` performs its next operation. */
  function Moved(s: State, t: nat): State
    requires t < |s.threads| == |s.values| && Enabled(s.sh, Code(s.threads[t]), t)
  {
    var pc := s.threads[t];
    var sh := Effect(s.sh, Code(pc), t, s.values[t]);
    var pc' := Following(pc, sh.readCount);
    s.(sh := sh, threads := s.threads[t := pc'],
       entered := if Entering(pc) && !Entering(pc') then s.entered + [t] else s.entered)
  }

  ghost predicate Move(s: State, s': State, t: nat) {
    && t < |s.threads| == |s.values| && s.threads[t] != Idle && Enabled(s.sh, Code(s.threads[t]), t)
    && s' == Moved(s, t)
  }

  ghost predicate Next(s: State, s': State, t: nat) {
    Begin(s, s', t) || Move(s, s', t)
  }

  ghost predicate IsRun(run: Run<State>)
    decreases run, 0
  {
    match run
    case Start(s) => Init(s)
    case Then(before, s) => Extends(before, s)
  }

  /** One more transition at the end of a run. */
  ghost predicate Extends(before: Run<State>, s: State)
    decreases before, 1
  {
    IsRun(before) && exists t :: Next(before.s, s, t)
  }

  /* ----- who holds what ----- */

  /** What a thread holds, or is counted for: `readers` in readCount; `resource` is a writer's hold. */
  datatype Tally = Tally(service: nat, resource: nat, rmutex: nat, readGuard: nat, readers: nat, taking: nat,
                         giving: nat, data: nat)

  const NOTHING := Tally(0, 0, 0, 0, 0, 0, 0, 0)

  function Weight(pc: PC): Tally {
    match pc
    case WaitResource        => Tally(1, 0, 0, 0, 0, 0, 0, 0)
    case WriterAdmitsNext    => Tally(1, 1, 0, 0, 0, 0, 0, 0)
    case WriteLock           => Tally(0, 1, 0, 0, 0, 0, 0, 0)
    case Write               => Tally(0, 1, 0, 0, 0, 0, 0, 1)
    case WriteUnlock         => Tally(0, 1, 0, 0, 0, 0, 0, 1)
    case ReleaseResource     => Tally(0, 1, 0, 0, 0, 0, 0, 0)
    case EntryRmutex         => Tally(1, 0, 0, 0, 0, 0, 0, 0)
    case EntryReadGuard      => Tally(1, 0, 1, 0, 0, 0, 0, 0)
    case CountReader         => Tally(1, 0, 1, 1, 0, 0, 0, 0)
    case TakeResource        => Tally(1, 0, 1, 1, 1, 1, 0, 0)
    case EntryReadUnguard    => Tally(1, 0, 1, 1, 1, 0, 0, 0)
    case ReaderAdmitsNext    => Tally(1, 0, 1, 0, 1, 0, 0, 0)
    case EntryRmutexRelease  => Tally(0, 0, 1, 0, 1, 0, 0, 0)
    case ReadLock            => Tally(0, 0, 0, 0, 1, 0, 0, 0)
    case Read                => Tally(0, 0, 0, 0, 1, 0, 0, 1)
    case ReadUnlock          => Tally(0, 0, 0, 0, 1, 0, 0, 1)
    case ExitRmutex          => Tally(0, 0, 0, 0, 1, 0, 0, 0)
    case ExitReadGuard       => Tally(0, 0, 1, 0, 1, 0, 0, 0)
    case UncountReader       => Tally(0, 0, 1, 1, 1, 0, 0, 0)
    case GiveResource        => Tally(0, 0, 1, 1, 0, 0, 1, 0)
    case ExitReadUnguard     => Tally(0, 0, 1, 1, 0, 0, 0, 0)
    case ExitRmutexRelease   => Tally(0, 0, 1, 0, 0, 0, 0, 0)
    case _                   => Tally(0, 0, 0, 0, 0, 0, 0, 0)
  }

  function Add(a: Tally, b: Tally): Tally {
    Tally(a.service + b.service, a.resource + b.resource, a.rmutex + b.rmutex, a.readGuard + b.readGuard, a.readers + b.readers,
          a.taking + b.taking, a.giving + b.giving, a.data + b.data)
  }

  ghost function Total(threads: seq<PC>): Tally {
    if threads == [] then NOTHING else Add(Total(threads[..|threads| - 1]), Weight(threads[|threads| - 1]))
  }

  lemma {:induction false} TotalUpdate(threads: seq<PC>, t: nat, pc: PC)
    requires t < |threads|
    ensures Add(Total(threads[t := pc]), Weight(threads[t])) == Add(Total(threads), Weight(pc))
  {
    hide Weight;
    var u, n := threads[t := pc], |threads| - 1;
    if t == n {
      assert u[..n] == threads[..n];
    } else {
      assert u[..n] == threads[..n][t := pc];
      TotalUpdate(threads[..n], t, pc);
    }
  }

  /** What the others hold besides thread `t`. */
  ghost function Rest(threads: seq<PC>, t: nat): Tally
    requires t < |threads|
  {
    Total(threads[t := Idle])
  }

  lemma TotalSplit(threads: seq<PC>, t: nat, pc: PC)
    requires t < |threads|
    ensures Total(threads) == Add(Rest(threads, t), Weight(threads[t]))
    ensures Total(threads[t := pc]) == Add(Rest(threads, t), Weight(pc))
  {
    hide Total;
    assert Weight(Idle) == NOTHING;
    hide Weight;
    TotalUpdate(threads, t, Idle);
    TotalUpdate(threads[t := pc], t, Idle);
    assert threads[t := pc][t := Idle] == threads[t := Idle];
  }

  /** Some holds imply others, for each thread and so for all together. */
  predicate Nested(n: Tally) {
    n.taking + n.giving <= n.readGuard <= n.rmutex && n.taking <= n.readers && n.taking <= n.service
  }

  lemma {:induction false} TotalNested(threads: seq<PC>)
    ensures Nested(Total(threads))
  {
    if threads != [] {
      TotalNested(threads[..|threads| - 1]);
    }
  }

  /* ----- the invariant ----- */

  function One(b: bool): nat {
    if b then 1 else 0
  }

  predicate ReadersGood(sh: Shared, n: Tally) {
    && sh.sems.rmutex + n.rmutex == 1 && sh.sems.readCountGuard + n.readGuard == 1
    && sh.readCount == n.readers
    && (n.taking > 0 ==> n.readers == 1) && (n.giving > 0 ==> n.readers == 0)
  }

  /** `resource` is free, or one writer has it, or the readers have it as a group. */
  predicate ResourceGood(sh: Shared, n: Tally) {
    sh.sems.resource + n.resource + One(n.readers > 0) - n.taking + n.giving == 1
  }

  predicate ServiceGood(sh: Shared, n: Tally) {
    sh.service + n.service == 1
  }

  predicate DataGood(sh: Shared, n: Tally) {
    sh.sems.dataGuard + n.data == 1 && sh.written == sh.taken + sh.data
  }

  predicate Good(sh: Shared, n: Tally) {
    ReadersGood(sh, n) && ResourceGood(sh, n) && ServiceGood(sh, n) && DataGood(sh, n)
  }

  predicate InLine(pc: PC) {
    pc.WriterInLine? || pc.ReaderInLine?
  }

  /** Those in line are the threads that have arrived and are not yet admitted. */
  predicate LineGood(sh: Shared, threads: seq<PC>) {
    && sh.arrived == sh.admitted + sh.line
    && (forall i :: 0 <= i < |sh.line| ==> sh.line[i] < |threads| && InLine(threads[sh.line[i]]))
    && (forall i, j :: 0 <= i < j < |sh.line| ==> sh.line[i] != sh.line[j])
    && (forall t :: 0 <= t < |threads| && InLine(threads[t]) ==> t in sh.line)
  }

  ghost predicate Inv(s: State) {
    Good(s.sh, Total(s.threads)) && LineGood(s.sh, s.threads) && |s.values| == |s.threads|
  }

  /** Thread `t` moves from `pc` while the others hold `rest`, seen from the shared variables. */
  predicate Shift(sh: Shared, t: nat, pc: PC, value: int, sh': Shared, pc': PC, rest: Tally) {
    && Enabled(sh, Code(pc), t) && sh' == Effect(sh, Code(pc), t, value)
    && pc' == Following(pc, sh'.readCount) && Nested(rest)
  }

  /* ----- what one operation does to the holds ----- */

  function Gain(i: Instr, x: Sem): int {
    if i == Acquire(x) then 1 else if i == Release(x) then -1 else 0
  }

  function Up(i: Instr, up: Instr, down: Instr): int {
    if i == up then 1 else if i == down then -1 else 0
  }

  lemma LocksMove(pc: PC, readCount: int)
    ensures var i, w, w' := Code(pc), Weight(pc), Weight(Following(pc, readCount));
            w'.rmutex - w.rmutex == Gain(i, Rmutex) && w'.readGuard - w.readGuard == Gain(i, ReadCountGuard)
  {
  }

  lemma DataMove(pc: PC, readCount: int)
    ensures var i, w, w' := Code(pc), Weight(pc), Weight(Following(pc, readCount));
            w'.data - w.data == Gain(i, DataGuard) && w'.service - w.service == Up(i, Admit, NextInLine)
  {
  }

  /** Readers count themselves with the guard held; the first is to take the resource, the last to give it. */
  lemma ReadersMove(pc: PC, readCount: int)
    ensures var i, w, w' := Code(pc), Weight(pc), Weight(Following(pc, readCount));
            && w'.readers - w.readers == Up(i, ReadersUp, ReadersDown)
            && (i == ReadersUp || i == ReadersDown ==> w.readGuard == 1 && w.taking == w.giving == 0)
            && w'.taking == One(i == ReadersUp && readCount == 1)
            && w'.giving == One(i == ReadersDown && readCount == 0)
  {
  }

  lemma ResourceMove(pc: PC, readCount: int)
    ensures var i, w, w' := Code(pc), Weight(pc), Weight(Following(pc, readCount));
            w'.resource - w.resource + w.taking - w.giving == Gain(i, Resource)
  {
  }

  lemma ShiftReaders(sh: Shared, t: nat, pc: PC, value: int, sh': Shared, pc': PC, rest: Tally)
    requires Shift(sh, t, pc, value, sh', pc', rest)
    requires ReadersGood(sh, Add(rest, Weight(pc)))
    ensures ReadersGood(sh', Add(rest, Weight(pc')))
  {
    hide Weight, Code, Following;
    LocksMove(pc, sh'.readCount);
    ReadersMove(pc, sh'.readCount);
  }

  lemma ShiftResource(sh: Shared, t: nat, pc: PC, value: int, sh': Shared, pc': PC, rest: Tally)
    requires Shift(sh, t, pc, value, sh', pc', rest)
    requires ReadersGood(sh, Add(rest, Weight(pc))) && ResourceGood(sh, Add(rest, Weight(pc)))
    ensures ResourceGood(sh', Add(rest, Weight(pc')))
  {
    hide Weight, Code, Following;
    ReadersMove(pc, sh'.readCount);
    ResourceMove(pc, sh'.readCount);
  }

  lemma ShiftService(sh: Shared, t: nat, pc: PC, value: int, sh': Shared, pc': PC, rest: Tally)
    requires Shift(sh, t, pc, value, sh', pc', rest)
    requires ServiceGood(sh, Add(rest, Weight(pc)))
    ensures ServiceGood(sh', Add(rest, Weight(pc')))
  {
    hide Weight, Code, Following;
    DataMove(pc, sh'.readCount);
  }

  lemma ShiftData(sh: Shared, t: nat, pc: PC, value: int, sh': Shared, pc': PC, rest: Tally)
    requires Shift(sh, t, pc, value, sh', pc', rest)
    requires DataGood(sh, Add(rest, Weight(pc)))
    ensures DataGood(sh', Add(rest, Weight(pc')))
  {
    hide Weight, Code, Following;
    DataMove(pc, sh'.readCount);
  }

  lemma ShiftGood(sh: Shared, t: nat, pc: PC, value: int, sh': Shared, pc': PC, rest: Tally)
    requires Shift(sh, t, pc, value, sh', pc', rest) && Good(sh, Add(rest, Weight(pc)))
    ensures Good(sh', Add(rest, Weight(pc')))
  {
    hide Weight, Shift, ReadersGood, ResourceGood, ServiceGood, DataGood;
    ShiftReaders(sh, t, pc, value, sh', pc', rest);
    ShiftResource(sh, t, pc, value, sh', pc', rest);
    ShiftService(sh, t, pc, value, sh', pc', rest);
    ShiftData(sh, t, pc, value, sh', pc', rest);
  }

  /** The line changes only by an arrival at its end or an admission from its front. */
  lemma LineMoves(s: State, s': State, t: nat)
    requires Next(s, s', t)
    ensures |s'.threads| == |s.threads| && forall u :: 0 <= u < |s.threads| && u != t ==> s'.threads[u] == s.threads[u]
    ensures
      || (s'.sh.line == s.sh.line && s'.sh.arrived == s.sh.arrived && s'.sh.admitted == s.sh.admitted
          && InLine(s.threads[t]) == InLine(s'.threads[t]) == false)
      || (s'.sh.line == s.sh.line + [t] && s'.sh.arrived == s.sh.arrived + [t] && s'.sh.admitted == s.sh.admitted
          && !InLine(s.threads[t]) && InLine(s'.threads[t]))
      || (s.sh.line != [] && s.sh.line[0] == t && s'.sh.line == s.sh.line[1..] && s'.sh.arrived == s.sh.arrived
          && s'.sh.admitted == s.sh.admitted + [t] && InLine(s.threads[t]) && !InLine(s'.threads[t]))
  {
  }

  lemma LineArrival(sh: Shared, sh': Shared, threads: seq<PC>, t: nat, pc: PC)
    requires LineGood(sh, threads) && t < |threads| && !InLine(threads[t]) && InLine(pc)
    requires sh'.line == sh.line + [t] && sh'.arrived == sh.arrived + [t] && sh'.admitted == sh.admitted
    ensures LineGood(sh', threads[t := pc])
  {
    assert t !in sh.line;
    assert sh'.line[|sh.line|] == t;
  }

  lemma LineAdmission(sh: Shared, sh': Shared, threads: seq<PC>, t: nat, pc: PC)
    requires LineGood(sh, threads) && t < |threads| && !InLine(pc) && sh.line != [] && sh.line[0] == t
    requires sh'.line == sh.line[1..] && sh'.arrived == sh.arrived && sh'.admitted == sh.admitted + [t]
    ensures LineGood(sh', threads[t := pc])
  {
    hide InLine;
    assert sh.line == [t] + sh'.line;
  }

  lemma LineNext(s: State, s': State, t: nat)
    requires LineGood(s.sh, s.threads) && Next(s, s', t)
    ensures LineGood(s'.sh, s'.threads)
  {
    LineMoves(s, s', t);
    hide Next, InLine;
    assert s'.threads == s.threads[t := s'.threads[t]];
    if |s'.sh.line| > |s.sh.line| {
      LineArrival(s.sh, s'.sh, s.threads, t, s'.threads[t]);
    } else if |s'.sh.line| < |s.sh.line| {
      LineAdmission(s.sh, s'.sh, s.threads, t, s'.threads[t]);
    }
  }

  lemma InvNext(s: State, s': State, t: nat)
    requires Inv(s) && Next(s, s', t)
    ensures Inv(s')
  {
    hide Good, Total, Nested, LineGood;
    LineNext(s, s', t);
    TotalSplit(s.threads, t, s'.threads[t]);
    TotalNested(s.threads[t := Idle]);
    if Begin(s, s', t) {
      assert Weight(Idle) == Weight(ReaderArrives) == Weight(WriterArrives);
    } else {
      hide Weight, Code, Effect, Following, Enabled;
      ShiftGood(s.sh, t, s.threads[t], s.values[t], s'.sh, s'.threads[t], Rest(s.threads, t));
    }
  }

  lemma StartGood(sh: Shared, n: Tally)
    requires n == NOTHING && sh.sems == Sems(1, 1, 1, 1) && sh.service == 1
    requires sh.readCount == 0 && sh.written == sh.taken + sh.data
    ensures Good(sh, n)
  {
  }

  lemma InitInv(s: State)
    requires Init(s)
    ensures Inv(s)
  {
    hide Total, Good;
    NobodyHolds(s.threads);
    assert s.sh.written == s.sh.taken + s.sh.data;
    assert s.sh.arrived == s.sh.admitted + s.sh.line;
    StartGood(s.sh, Total(s.threads));
  }

  lemma {:induction false} RunInv(run: Run<State>)
    requires IsRun(run)
    ensures Inv(run.s)
  {
    hide Inv, Init, Next;
    match run
    case Start(s) => InitInv(s);
    case Then(before, s) =>
      RunInv(before);
      var t :| Next(before.s, s, t);
      InvNext(before.s, s, t);
  }

  lemma {:induction false} NobodyHolds(threads: seq<PC>)
    requires forall t :: 0 <= t < |threads| ==> threads[t] == Idle
    ensures Total(threads) == NOTHING
  {
    if threads != [] {
      NobodyHolds(threads[..|threads| - 1]);
      assert Weight(threads[|threads| - 1]) == NOTHING;
    }
    hide Weight;
  }

  /** Two threads and the rest. */
  lemma TotalPair(threads: seq<PC>, t: nat, u: nat) returns (rest: Tally)
    requires t < |threads| && u < |threads| && t != u
    ensures Total(threads) == Add(rest, Add(Weight(threads[t]), Weight(threads[u]))) && Nested(rest)
  {
    hide Weight, Total, Nested;
    TotalSplit(threads, t, Idle);
    TotalSplit(threads[t := Idle], u, Idle);
    rest := Rest(threads[t := Idle], u);
    TotalNested(threads[t := Idle][u := Idle]);
  }

  /** A reachable state, seen from one thread. */
  lemma {:induction false} View(run: Run<State>, t: nat) returns (rest: Tally)
    requires IsRun(run) && t < |run.s.threads|
    ensures Total(run.s.threads) == Add(rest, Weight(run.s.threads[t])) && Nested(rest)
    ensures Good(run.s.sh, Add(rest, Weight(run.s.threads[t])))
  {
    hide IsRun, Total, Good, Weight, Nested;
    RunInv(run);
    rest := Rest(run.s.threads, t);
    TotalSplit(run.s.threads, t, Idle);
    TotalNested(run.s.threads[t := Idle]);
  }

  /* ----- safety ----- */

  /** The thread is between the acquisition of `resource` and its release: for a writer by itself, for a
      reader by the first and the last of the group. */
  predicate Writing(pc: PC) {
    pc.WriterAdmitsNext? || pc.WriteLock? || pc.Write? || pc.WriteUnlock? || pc.ReleaseResource?
  }

  predicate Reading(pc: PC) {
    || pc.EntryReadUnguard? || pc.ReaderAdmitsNext? || pc.EntryRmutexRelease? || pc.ReadLock? || pc.Read?
    || pc.ReadUnlock? || pc.ExitRmutex? || pc.ExitReadGuard? || pc.UncountReader?
  }

  predicate WaitsForResource(pc: PC) {
    pc.WaitResource? || pc.TakeResource?
  }

  lemma HoldsResource(pc: PC)
    ensures Writing(pc) ==> Weight(pc).resource == 1 && Weight(pc).taking == 0
    ensures Reading(pc) ==> Weight(pc).readers == 1 && Weight(pc).taking == 0
    ensures WaitsForResource(pc) ==> Weight(pc).service == 1
  {
  }

  lemma ExclusionOf(sh: Shared, pc: PC, pc': PC, rest: Tally)
    requires Good(sh, Add(rest, Add(Weight(pc), Weight(pc')))) && Nested(rest)
    ensures Writing(pc) ==> !Writing(pc') && !Reading(pc')
    ensures WaitsForResource(pc) ==> !WaitsForResource(pc')
  {
    HoldsResource(pc);
    HoldsResource(pc');
    hide Weight, Writing, Reading, DataGood;
  }

  /** At most one writer is writing, and then no reader is reading; at most one thread waits for `resource`. */
  lemma {:induction false} Exclusion(run: Run<State>, t: nat, u: nat)
    requires IsRun(run) && t < |run.s.threads| && u < |run.s.threads| && t != u
    ensures Writing(run.s.threads[t]) ==> !Writing(run.s.threads[u]) && !Reading(run.s.threads[u])
    ensures WaitsForResource(run.s.threads[t]) ==> !WaitsForResource(run.s.threads[u])
  {
    hide IsRun, Total, Good, Weight, Nested, Writing, Reading;
    RunInv(run);
    var rest := TotalPair(run.s.threads, t, u);
    ExclusionOf(run.s.sh, run.s.threads[t], run.s.threads[u], rest);
  }

  lemma ReleaseOf(sh: Shared, pc: PC, rest: Tally)
    requires Good(sh, Add(rest, Weight(pc))) && Nested(rest)
    ensures Code(pc).Release? ==> Get(sh.sems, Code(pc).x) == 0
    ensures Code(pc).NextInLine? ==> sh.service == 0
  {
  }

  /** No binary semaphore is released while it is free. */
  lemma {:induction false} NoReleaseWhileFree(run: Run<State>, t: nat)
    requires IsRun(run) && t < |run.s.threads|
    ensures Code(run.s.threads[t]).Release? ==> Get(run.s.sh.sems, Code(run.s.threads[t]).x) == 0
    ensures Code(run.s.threads[t]).NextInLine? ==> run.s.sh.service == 0
  {
    hide IsRun, Total, Good, Weight, Nested, Code, Get;
    var rest := View(run, t);
    ReleaseOf(run.s.sh, run.s.threads[t], rest);
  }

  /** What readers take is what writers wrote, in order. */
  lemma {:induction false} TakenInOrder(run: Run<State>)
    requires IsRun(run)
    ensures run.s.sh.taken <= run.s.sh.written && run.s.sh.written == run.s.sh.taken + run.s.sh.data
  {
    hide IsRun, Total, ReadersGood, ResourceGood, ServiceGood, LineGood;
    RunInv(run);
  }

  /* ----- order of service ----- */

  lemma {:induction false} ArrivalsStay(run: Run<State>, later: Run<State>)
    requires IsRun(later) && Continues(run, later)
    ensures IsRun(run) && run.s.sh.arrived <= later.s.sh.arrived
    decreases later
  {
    hide Next;
    if later != run {
      ArrivalsStay(run, later.before);
      var t :| Next(later.before.s, later.s, t);
      LineMoves(later.before.s, later.s, t);
    }
  }

  /** Threads are admitted in the order of their arrival: one that stands behind `k` others is admitted
      after exactly those, however the run continues. */
  lemma {:induction false} ServedInOrder(run: Run<State>, later: Run<State>, k: nat)
    requires IsRun(later) && Continues(run, later) && k < |run.s.sh.line|
    ensures var mine, t := |run.s.sh.admitted| + k, run.s.sh.line[k];
            if mine < |later.s.sh.admitted| then later.s.sh.admitted[mine] == t
            else mine - |later.s.sh.admitted| < |later.s.sh.line| && later.s.sh.line[mine - |later.s.sh.admitted|] == t
    ensures later.s.sh.admitted <= later.s.sh.arrived
  {
    hide IsRun, Total, Good, InLine;
    ArrivalsStay(run, later);
    RunInv(run);
    RunInv(later);
    assert run.s.sh.arrived[|run.s.sh.admitted| + k] == run.s.sh.line[k];
  }

  lemma {:induction false} ArrivesAtEnd(run: Run<State>, s': State, t: nat)
    requires IsRun(run) && Next(run.s, s', t) && Code(run.s.threads[t]) == Arrive
    ensures s'.sh.line == run.s.sh.line + [t] && t !in run.s.sh.line && s'.sh.admitted == run.s.sh.admitted
  {
    hide IsRun, Total, Good;
    RunInv(run);
  }

  /** A bound on waiting: between the arrival of a thread and its admission, exactly those are admitted that
      were in line when it arrived, whatever arrives later. */
  lemma {:induction false} AdmittedAfterThoseInLine(run: Run<State>, s': State, t: nat, later: Run<State>)
    requires IsRun(run) && Next(run.s, s', t) && Code(run.s.threads[t]) == Arrive
    requires IsRun(later) && Continues(Then(run, s'), later)
    ensures var before := |run.s.sh.admitted| + |run.s.sh.line|;
            if before < |later.s.sh.admitted| then later.s.sh.admitted[before] == t
            else before - |later.s.sh.admitted| < |later.s.sh.line| && later.s.sh.line[before - |later.s.sh.admitted|] == t
  {
    hide IsRun, Total, Good, Next, Code;
    ArrivesAtEnd(run, s', t);
    ServedInOrder(Then(run, s'), later, |run.s.sh.line|);
  }

  /* ----- order of entry ----- */

  /** How a step takes part in the entry: not at all, by an admission, or by getting hold of `resource`. */
  lemma EntryMoves(s: State, s': State, t: nat)
    requires Next(s, s', t)
    ensures |s'.threads| == |s.threads| && forall u :: 0 <= u < |s.threads| && u != t ==> s'.threads[u] == s.threads[u]
    ensures
      || (s'.sh.admitted == s.sh.admitted && s'.entered == s.entered
          && Entering(s.threads[t]) == Entering(s'.threads[t]))
      || (s'.sh.admitted == s.sh.admitted + [t] && s'.entered == s.entered && s.sh.service > 0
          && !Entering(s.threads[t]) && Entering(s'.threads[t]))
      || (s'.sh.admitted == s.sh.admitted && s'.entered == s.entered + [t]
          && Entering(s.threads[t]) && (Writing(s'.threads[t]) || Reading(s'.threads[t])))
  {
  }

  lemma NotEntering(pc: PC)
    ensures Writing(pc) || Reading(pc) ==> !Entering(pc)
  {
  }

  lemma EnteringServed(pc: PC)
    ensures Entering(pc) ==> Weight(pc).service == 1
  {
  }

  /** Only one thread is entering, and only while `serviceQueue` is taken. */
  lemma OneEntering(s: State, t: nat, u: nat)
    requires Inv(s) && t < |s.threads| && u < |s.threads| && Entering(s.threads[t])
    ensures s.sh.service == 0
    ensures Entering(s.threads[u]) ==> u == t
  {
    EnteringServed(s.threads[t]);
    EnteringServed(s.threads[u]);
    hide Total, Weight, Nested, Entering, LineGood, ReadersGood, ResourceGood, DataGood;
    TotalSplit(s.threads, t, Idle);
    if u != t {
      var rest := TotalPair(s.threads, t, u);
    }
  }

  /** All who were admitted have entered, but for the one that is entering. */
  ghost predicate EntryGood(s: State) {
    && (forall t :: 0 <= t < |s.threads| && Entering(s.threads[t]) ==> s.sh.admitted == s.entered + [t])
    && ((forall t :: 0 <= t < |s.threads| ==> !Entering(s.threads[t])) ==> s.sh.admitted == s.entered)
  }

  lemma EntryNext(s: State, s': State, t: nat)
    requires Inv(s) && EntryGood(s) && Next(s, s', t)
    ensures EntryGood(s')
  {
    EntryMoves(s, s', t);
    NotEntering(s'.threads[t]);
    hide Next, Entering, Inv, Writing, Reading;
    forall u | 0 <= u < |s.threads| && Entering(s.threads[u]) ensures s.sh.service == 0 && (Entering(s.threads[t]) ==> u == t) {
      OneEntering(s, u, t);
    }
  }

  lemma {:induction false} RunEntry(run: Run<State>)
    requires IsRun(run)
    ensures EntryGood(run.s)
  {
    hide Next, EntryGood, Inv;
    match run
    case Start(s) => EntryInit(s);
    case Then(before, s) =>
      assert Extends(before, s);
      RunEntry(before);
      RunInv(before);
      var t :| Next(before.s, s, t);
      EntryNext(before.s, s, t);
  }

  lemma EntryInit(s: State)
    requires Init(s)
    ensures EntryGood(s)
  {
  }

  /** Readers and writers get `resource` in the order of their arrival: all who were admitted have entered,
      but for at most the one in service. */
  lemma {:induction false} EnteredInOrder(run: Run<State>)
    requires IsRun(run)
    ensures run.s.entered <= run.s.sh.admitted <= run.s.sh.arrived
    ensures run.s.entered == run.s.sh.admitted
            || exists t :: 0 <= t < |run.s.threads| && Entering(run.s.threads[t]) && run.s.sh.admitted == run.s.entered + [t]
  {
    hide IsRun, Total, Good, InLine, Entering;
    RunInv(run);
    RunEntry(run);
  }

  /** A bound on waiting for the resource itself: between the arrival of a thread and its entry exactly those
      enter that were in line, or in service and not yet inside, when it arrived. */
  lemma {:induction false} EntersAfterThoseAhead(run: Run<State>, s': State, t: nat, later: Run<State>)
    requires IsRun(run) && Next(run.s, s', t) && Code(run.s.threads[t]) == Arrive
    requires IsRun(later) && Continues(Then(run, s'), later)
    ensures var before := |run.s.sh.admitted| + |run.s.sh.line|;
            && before - |run.s.entered| <= |run.s.sh.line| + 1
            && (before < |later.s.entered| ==> later.s.entered[before] == t)
            && (before >= |later.s.entered| ==>
                  t in later.s.sh.line || (t < |later.s.threads| && Entering(later.s.threads[t])))
  {
    hide IsRun, Next, Code, Entering;
    AdmittedAfterThoseInLine(run, s', t, later);
    EnteredInOrder(run);
    EnteredInOrder(later);
  }

  /* ----- no deadlock ----- */

  datatype Hold = OfData | OfResource | OfRmutex | OfReaders | OfService

  function Part(n: Tally, x: Hold): nat {
    match x
    case OfData => n.data
    case OfResource => n.resource
    case OfRmutex => n.rmutex
    case OfReaders => n.readers
    case OfService => n.service
  }

  lemma {:induction false} Holder(threads: seq<PC>, x: Hold) returns (t: nat)
    requires Part(Total(threads), x) > 0
    ensures t < |threads| && Part(Weight(threads[t]), x) > 0
  {
    hide Weight;
    if Part(Weight(threads[|threads| - 1]), x) > 0 {
      t := |threads| - 1;
    } else {
      t := Holder(threads[..|threads| - 1], x);
    }
  }

  predicate CanStep(s: State, t: nat) {
    t < |s.threads| == |s.values| && s.threads[t] != Idle && Enabled(s.sh, Code(s.threads[t]), t)
  }

  /** Holds in the order in which threads take them; nothing inside `x` is held. */
  predicate Innermost(n: Tally, x: Hold) {
    && Part(n, x) > 0
    && (!x.OfData? ==> n.data == 0)
    && (!x.OfData? && !x.OfResource? ==> n.resource == 0)
    && (x.OfReaders? || x.OfService? ==> n.rmutex == 0)
    && (x.OfService? ==> n.readers == 0)
  }

  lemma InnermostOf(sh: Shared, t: nat, pc: PC, rest: Tally, x: Hold)
    requires Good(sh, Add(rest, Weight(pc))) && Nested(rest)
    requires Part(Weight(pc), x) > 0 && Innermost(Add(rest, Weight(pc)), x)
    ensures pc != Idle && Enabled(sh, Code(pc), t)
  {
  }

  /** A thread that holds the innermost of what is held can go on. */
  lemma {:induction false} InnermostSteps(run: Run<State>, x: Hold) returns (t: nat)
    requires IsRun(run) && Innermost(Total(run.s.threads), x)
    ensures CanStep(run.s, t)
  {
    hide IsRun, Total, Good, Weight, Nested, Code, Enabled, Part, LineGood;
    RunInv(run);
    t := Holder(run.s.threads, x);
    var rest := View(run, t);
    InnermostOf(run.s.sh, t, run.s.threads[t], rest, x);
  }

  /** When nothing is held, whoever is first in line is admitted. */
  lemma {:induction false} OutermostSteps(run: Run<State>, u: nat) returns (t: nat)
    requires IsRun(run) && u < |run.s.threads| && run.s.threads[u] != Idle
    requires var n := Total(run.s.threads); n.data == n.resource == n.rmutex == n.readers == n.service == 0
    ensures CanStep(run.s, t)
  {
    hide IsRun, Total, Nested, ReadersGood, ResourceGood, DataGood;
    var rest := View(run, u);
    RunInv(run);
    t := if InLine(run.s.threads[u]) then run.s.sh.line[0] else u;
  }

  /** In every reachable state with an unfinished thread, some unfinished thread can go on. */
  lemma {:induction false} NoDeadlock(run: Run<State>, u: nat) returns (t: nat, s': State)
    requires IsRun(run) && u < |run.s.threads| && run.s.threads[u] != Idle
    ensures t < |run.s.threads| && run.s.threads[t] != Idle && Next(run.s, s', t)
  {
    hide IsRun, Code, Enabled, Effect, Following, Total;
    var n := Total(run.s.threads);
    if n.data > 0 {
      t := InnermostSteps(run, OfData);
    } else if n.resource > 0 {
      t := InnermostSteps(run, OfResource);
    } else if n.rmutex > 0 {
      t := InnermostSteps(run, OfRmutex);
    } else if n.readers > 0 {
      t := InnermostSteps(run, OfReaders);
    } else if n.service > 0 {
      t := InnermostSteps(run, OfService);
    } else {
      t := OutermostSteps(run, u);
    }
    s' := Moved(run.s, t);
  }
}

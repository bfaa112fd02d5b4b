/** The second readers-writers problem, solved with semaphores that are held on behalf of groups: the
    first writer takes `readTry` and the last one gives it back; likewise `resource` for readers.
    Threads run the code of `writer` and `reader` one operation at a time, in any number. */
module SecondReadersWriters {
  import opened Runs

  /** The binary semaphores and, after them, the three mutexes. */
  datatype Sem = Wmutex | Rmutex | ReadTry | Resource | WriteCountGuard | ReadCountGuard | DataGuard

  datatype Sems = Sems(wmutex: nat, rmutex: nat, readTry: nat, resource: nat,
                       writeCountGuard: nat, readCountGuard: nat, dataGuard: nat)

  /** `written` and `taken` are history: the values pushed, and those handed to readers. */
  datatype Shared = Shared(sems: Sems, writeCount: int, readCount: int, data: seq<int>, written: seq<int>, taken: seq<int>)

  datatype PC =
    | Idle
    // startWrite
    | EntryWmutex | EntryWriteGuard | CountWriter | BarReaders | EntryWriteUnguard | EntryWmutexRelease
    | WaitResource
    // writer, the write itself
    | WriteLock | Write | WriteUnlock | ReleaseResource
    // endWrite
    | ExitWmutex | ExitWriteGuard | UncountWriter | AdmitReaders | ExitWriteUnguard | ExitWmutexRelease
    // startRead
    | WaitReadTry | EntryRmutex | EntryReadGuard | CountReader | TakeResource | EntryReadUnguard | EntryRmutexRelease
    | ReleaseReadTry
    // reader, the read itself
    | ReadLock | Read | ReadUnlock
    // endRead
    | ExitRmutex | ExitReadGuard | UncountReader | GiveResource | ExitReadUnguard | ExitRmutexRelease

  datatype Instr = Nop | Acquire(x: Sem) | Release(x: Sem) | CountUp | CountDown | ReadersUp | ReadersDown | Push | Pop

  datatype State = State(sh: Shared, threads: seq<PC>, values: seq<int>)

  /** The operation at each program counter. */
  function Code(pc: PC): Instr {
    match pc
    case Idle => Nop
    case EntryWmutex => Acquire(Wmutex)
    case EntryWriteGuard => Acquire(WriteCountGuard)
    case CountWriter => CountUp
    case BarReaders => Acquire(ReadTry)
    case EntryWriteUnguard => Release(WriteCountGuard)
    case EntryWmutexRelease => Release(Wmutex)
    case WaitResource => Acquire(Resource)
    case WriteLock => Acquire(DataGuard)
    case Write => Push
    case WriteUnlock => Release(DataGuard)
    case ReleaseResource => Release(Resource)
    case ExitWmutex => Acquire(Wmutex)
    case ExitWriteGuard => Acquire(WriteCountGuard)
    case UncountWriter => CountDown
    case AdmitReaders => Release(ReadTry)
    case ExitWriteUnguard => Release(WriteCountGuard)
    case ExitWmutexRelease => Release(Wmutex)
    case WaitReadTry => Acquire(ReadTry)
    case EntryRmutex => Acquire(Rmutex)
    case EntryReadGuard => Acquire(ReadCountGuard)
    case CountReader => ReadersUp
    case TakeResource => Acquire(Resource)
    case EntryReadUnguard => Release(ReadCountGuard)
    case EntryRmutexRelease => Release(Rmutex)
    case ReleaseReadTry => Release(ReadTry)
    case ReadLock => Acquire(DataGuard)
    case Read => Pop
    case ReadUnlock => Release(DataGuard)
    case ExitRmutex => Acquire(Rmutex)
    case ExitReadGuard => Acquire(ReadCountGuard)
    case UncountReader => ReadersDown
    case GiveResource => Release(Resource)
    case ExitReadUnguard => Release(ReadCountGuard)
    case ExitRmutexRelease => Release(Rmutex)
  }

  /** Where a thread goes on, given the counts after the operation. */
  function Following(pc: PC, writeCount: int, readCount: int): PC {
    match pc
    case Idle => Idle
    case EntryWmutex => EntryWriteGuard
    case EntryWriteGuard => CountWriter
    case CountWriter => if writeCount == 1 then BarReaders else EntryWriteUnguard
    case BarReaders => EntryWriteUnguard
    case EntryWriteUnguard => EntryWmutexRelease
    case EntryWmutexRelease => WaitResource
    case WaitResource => WriteLock
    case WriteLock => Write
    case Write => WriteUnlock
    case WriteUnlock => ReleaseResource
    case ReleaseResource => ExitWmutex
    case ExitWmutex => ExitWriteGuard
    case ExitWriteGuard => UncountWriter
    case UncountWriter => if writeCount == 0 then AdmitReaders else ExitWriteUnguard
    case AdmitReaders => ExitWriteUnguard
    case ExitWriteUnguard => ExitWmutexRelease
    case ExitWmutexRelease => Idle
    case WaitReadTry => EntryRmutex
    case EntryRmutex => EntryReadGuard
    case EntryReadGuard => CountReader
    case CountReader => if readCount == 1 then TakeResource else EntryReadUnguard
    case TakeResource => EntryReadUnguard
    case EntryReadUnguard => EntryRmutexRelease
    case EntryRmutexRelease => ReleaseReadTry
    case ReleaseReadTry => ReadLock
    case ReadLock => Read
    case Read => ReadUnlock
    case ReadUnlock => ExitRmutex
    case ExitRmutex => ExitReadGuard
    case ExitReadGuard => UncountReader
    case UncountReader => if readCount == 0 then GiveResource else ExitReadUnguard
    case GiveResource => ExitReadUnguard
    case ExitReadUnguard => ExitRmutexRelease
    case ExitRmutexRelease => Idle
  }

  function Get(s: Sems, x: Sem): nat {
    match x
    case Wmutex => s.wmutex
    case Rmutex => s.rmutex
    case ReadTry => s.readTry
    case Resource => s.resource
    case WriteCountGuard => s.writeCountGuard
    case ReadCountGuard => s.readCountGuard
    case DataGuard => s.dataGuard
  }

  function Set(s: Sems, x: Sem, n: nat): Sems {
    match x
    case Wmutex => s.(wmutex := n)
    case Rmutex => s.(rmutex := n)
    case ReadTry => s.(readTry := n)
    case Resource => s.(resource := n)
    case WriteCountGuard => s.(writeCountGuard := n)
    case ReadCountGuard => s.(readCountGuard := n)
    case DataGuard => s.(dataGuard := n)
  }

  predicate Enabled(sh: Shared, i: Instr) {
    i.Acquire? ==> Get(sh.sems, i.x) > 0
  }

  /** The effect of an operation on the shared variables; `value` is what a writer has to push. */
  function Effect(sh: Shared, i: Instr, value: int): Shared
    requires Enabled(sh, i)
  {
    match i
    case Nop => sh
    case Acquire(x) => sh.(sems := Set(sh.sems, x, Get(sh.sems, x) - 1))
    case Release(x) => sh.(sems := Set(sh.sems, x, Get(sh.sems, x) + 1))
    case CountUp => sh.(writeCount := sh.writeCount + 1)
    case CountDown => sh.(writeCount := sh.writeCount - 1)
    case ReadersUp => sh.(readCount := sh.readCount + 1)
    case ReadersDown => sh.(readCount := sh.readCount - 1)
    case Push => sh.(data := sh.data + [value], written := sh.written + [value])
    case Pop => if sh.data == [] then sh else sh.(data := sh.data[1..], taken := sh.taken + [sh.data[0]])
  }

  ghost predicate Init(s: State) {
    && s.sh == Shared(Sems(1, 1, 1, 1, 1, 1, 1), 0, 0, [], [], [])
    && (forall t :: 0 <= t < |s.threads| ==> s.threads[t] == Idle) && |s.values| == |s.threads|
  }

  ghost predicate Begin(s: State, s': State, t: nat) {
    && t < |s.threads| == |s.values| && s.threads[t] == Idle
    && (s' == s.(threads := s.threads[t := WaitReadTry])
        || (|s'.values| == |s.values|
            && s' == s.(threads := s.threads[t := EntryWmutex], values := s.values[t := s'.values[t]])))
  }

  ghost predicate Move(s: State, s': State, t: nat) {
    && t < |s.threads| == |s.values| && s.threads[t] != Idle && Enabled(s.sh, Code(s.threads[t]))
    && var sh := Effect(s.sh, Code(s.threads[t]), s.values[t]);
       s' == s.(sh := sh, threads := s.threads[t := Following(s.threads[t], sh.writeCount, sh.readCount)])
  }

  ghost predicate Next(s: State, s': State, t: nat) {
    Begin(s, s', t) || Move(s, s', t)
  }

  ghost predicate IsRun(run: Run<State>)
    decreases run, 0
  {
    match run
    case Start(s) => Init(s)
    case Then(before, s) => Extends(before, s)
  }

  /** One more transition at the end of a run. */
  ghost predicate Extends(before: Run<State>, s: State)
    decreases before, 1
  {
    IsRun(before) && exists t :: Next(before.s, s, t)
  }

  /* ----- who holds what ----- */

  /** What a thread holds, or is counted for: `counted` in writeCount, `readers` in readCount; `inWrite`
      is a writer's hold on `resource`, `readTry` a reader's hold on that semaphore. */
  datatype Tally = Tally(wmutex: nat, writeGuard: nat, counted: nat, barring: nat, admitting: nat, inWrite: nat,
                         readTry: nat, rmutex: nat, readGuard: nat, readers: nat, taking: nat, giving: nat, data: nat)

  const NOTHING := Tally(0, 0, 0, 0, 0, 0, 0, 0, 0, 0, 0, 0, 0)

  function Weight(pc: PC): Tally {
    match pc
    case EntryWriteGuard     => Tally(1, 0, 0, 0, 0, 0, 0, 0, 0, 0, 0, 0, 0)
    case CountWriter         => Tally(1, 1, 0, 0, 0, 0, 0, 0, 0, 0, 0, 0, 0)
    case BarReaders          => Tally(1, 1, 1, 1, 0, 0, 0, 0, 0, 0, 0, 0, 0)
    case EntryWriteUnguard   => Tally(1, 1, 1, 0, 0, 0, 0, 0, 0, 0, 0, 0, 0)
    case EntryWmutexRelease  => Tally(1, 0, 1, 0, 0, 0, 0, 0, 0, 0, 0, 0, 0)
    case WaitResource        => Tally(0, 0, 1, 0, 0, 0, 0, 0, 0, 0, 0, 0, 0)
    case WriteLock           => Tally(0, 0, 1, 0, 0, 1, 0, 0, 0, 0, 0, 0, 0)
    case Write               => Tally(0, 0, 1, 0, 0, 1, 0, 0, 0, 0, 0, 0, 1)
    case WriteUnlock         => Tally(0, 0, 1, 0, 0, 1, 0, 0, 0, 0, 0, 0, 1)
    case ReleaseResource     => Tally(0, 0, 1, 0, 0, 1, 0, 0, 0, 0, 0, 0, 0)
    case ExitWmutex          => Tally(0, 0, 1, 0, 0, 0, 0, 0, 0, 0, 0, 0, 0)
    case ExitWriteGuard      => Tally(1, 0, 1, 0, 0, 0, 0, 0, 0, 0, 0, 0, 0)
    case UncountWriter       => Tally(1, 1, 1, 0, 0, 0, 0, 0, 0, 0, 0, 0, 0)
    case AdmitReaders        => Tally(1, 1, 0, 0, 1, 0, 0, 0, 0, 0, 0, 0, 0)
    case ExitWriteUnguard    => Tally(1, 1, 0, 0, 0, 0, 0, 0, 0, 0, 0, 0, 0)
    case ExitWmutexRelease   => Tally(1, 0, 0, 0, 0, 0, 0, 0, 0, 0, 0, 0, 0)
    case EntryRmutex         => Tally(0, 0, 0, 0, 0, 0, 1, 0, 0, 0, 0, 0, 0)
    case EntryReadGuard      => Tally(0, 0, 0, 0, 0, 0, 1, 1, 0, 0, 0, 0, 0)
    case CountReader         => Tally(0, 0, 0, 0, 0, 0, 1, 1, 1, 0, 0, 0, 0)
    case TakeResource        => Tally(0, 0, 0, 0, 0, 0, 1, 1, 1, 1, 1, 0, 0)
    case EntryReadUnguard    => Tally(0, 0, 0, 0, 0, 0, 1, 1, 1, 1, 0, 0, 0)
    case EntryRmutexRelease  => Tally(0, 0, 0, 0, 0, 0, 1, 1, 0, 1, 0, 0, 0)
    case ReleaseReadTry      => Tally(0, 0, 0, 0, 0, 0, 1, 0, 0, 1, 0, 0, 0)
    case ReadLock            => Tally(0, 0, 0, 0, 0, 0, 0, 0, 0, 1, 0, 0, 0)
    case Read                => Tally(0, 0, 0, 0, 0, 0, 0, 0, 0, 1, 0, 0, 1)
    case ReadUnlock          => Tally(0, 0, 0, 0, 0, 0, 0, 0, 0, 1, 0, 0, 1)
    case ExitRmutex          => Tally(0, 0, 0, 0, 0, 0, 0, 0, 0, 1, 0, 0, 0)
    case ExitReadGuard       => Tally(0, 0, 0, 0, 0, 0, 0, 1, 0, 1, 0, 0, 0)
    case UncountReader       => Tally(0, 0, 0, 0, 0, 0, 0, 1, 1, 1, 0, 0, 0)
    case GiveResource        => Tally(0, 0, 0, 0, 0, 0, 0, 1, 1, 0, 0, 1, 0)
    case ExitReadUnguard     => Tally(0, 0, 0, 0, 0, 0, 0, 1, 1, 0, 0, 0, 0)
    case ExitRmutexRelease   => Tally(0, 0, 0, 0, 0, 0, 0, 1, 0, 0, 0, 0, 0)
    case _                   => Tally(0, 0, 0, 0, 0, 0, 0, 0, 0, 0, 0, 0, 0)
  }

  function Add(a: Tally, b: Tally): Tally {
    Tally(a.wmutex + b.wmutex, a.writeGuard + b.writeGuard, a.counted + b.counted, a.barring + b.barring,
          a.admitting + b.admitting, a.inWrite + b.inWrite, a.readTry + b.readTry, a.rmutex + b.rmutex,
          a.readGuard + b.readGuard, a.readers + b.readers, a.taking + b.taking, a.giving + b.giving, a.data + b.data)
  }

  ghost function Total(threads: seq<PC>): Tally {
    if threads == [] then NOTHING else Add(Total(threads[..|threads| - 1]), Weight(threads[|threads| - 1]))
  }

  lemma {:induction false} TotalUpdate(threads: seq<PC>, t: nat, pc: PC)
    requires t < |threads|
    ensures Add(Total(threads[t := pc]), Weight(threads[t])) == Add(Total(threads), Weight(pc))
  {
    hide Weight;
    var u, n := threads[t := pc], |threads| - 1;
    if t == n {
      assert u[..n] == threads[..n];
    } else {
      assert u[..n] == threads[..n][t := pc];
      TotalUpdate(threads[..n], t, pc);
    }
  }

  /** What the others hold besides thread `t`. */
  ghost function Rest(threads: seq<PC>, t: nat): Tally
    requires t < |threads|
  {
    Total(threads[t := Idle])
  }

  lemma TotalSplit(threads: seq<PC>, t: nat, pc: PC)
    requires t < |threads|
    ensures Total(threads) == Add(Rest(threads, t), Weight(threads[t]))
    ensures Total(threads[t := pc]) == Add(Rest(threads, t), Weight(pc))
  {
    hide Total;
    assert Weight(Idle) == NOTHING;
    hide Weight;
    TotalUpdate(threads, t, Idle);
    TotalUpdate(threads[t := pc], t, Idle);
    assert threads[t := pc][t := Idle] == threads[t := Idle];
  }

  /** Some holds imply others, for each thread and so for all together. */
  predicate Nested(n: Tally) {
    && n.barring + n.admitting <= n.writeGuard <= n.wmutex && n.barring + n.inWrite <= n.counted
    && n.taking + n.giving <= n.readGuard <= n.rmutex && n.taking <= n.readers
  }

  lemma WeightNested(pc: PC)
    ensures Nested(Weight(pc))
  {
  }

  lemma {:induction false} TotalNested(threads: seq<PC>)
    ensures Nested(Total(threads))
  {
    hide Weight;
    if threads != [] {
      TotalNested(threads[..|threads| - 1]);
      WeightNested(threads[|threads| - 1]);
    }
  }

  /* ----- the invariant ----- */

  function One(b: bool): nat {
    if b then 1 else 0
  }

  predicate WritersGood(sh: Shared, n: Tally) {
    && sh.sems.wmutex + n.wmutex == 1 && sh.sems.writeCountGuard + n.writeGuard == 1
    && sh.writeCount == n.counted
    && (n.barring > 0 ==> n.counted == 1) && (n.admitting > 0 ==> n.counted == 0)
  }

  predicate ReadersGood(sh: Shared, n: Tally) {
    && sh.sems.rmutex + n.rmutex == 1 && sh.sems.readCountGuard + n.readGuard == 1
    && sh.readCount == n.readers
    && (n.taking > 0 ==> n.readers == 1) && (n.giving > 0 ==> n.readers == 0)
  }

  /** `readTry` is free, or a reader has it, or the writers have it as a group: from the acquisition by the
      first until the release by the last. */
  predicate ReadTryGood(sh: Shared, n: Tally) {
    sh.sems.readTry + n.readTry + One(n.counted > 0) - n.barring + n.admitting == 1
  }

  /** `resource` is free, or one writer has it, or the readers have it as a group. */
  predicate ResourceGood(sh: Shared, n: Tally) {
    sh.sems.resource + n.inWrite + One(n.readers > 0) - n.taking + n.giving == 1
  }

  predicate DataGood(sh: Shared, n: Tally) {
    sh.sems.dataGuard + n.data == 1 && sh.written == sh.taken + sh.data
  }

  predicate Good(sh: Shared, n: Tally) {
    WritersGood(sh, n) && ReadersGood(sh, n) && ReadTryGood(sh, n) && ResourceGood(sh, n) && DataGood(sh, n)
  }

  ghost predicate Inv(s: State) {
    Good(s.sh, Total(s.threads)) && |s.values| == |s.threads|
  }

  /** A thread moves from `pc` while the others hold `rest`, seen from the shared variables. */
  predicate Shift(sh: Shared, pc: PC, value: int, sh': Shared, pc': PC, rest: Tally) {
    && Enabled(sh, Code(pc)) && sh' == Effect(sh, Code(pc), value)
    && pc' == Following(pc, sh'.writeCount, sh'.readCount) && Nested(rest)
  }

  /* ----- what one operation does to the holds ----- */

  function Gain(i: Instr, x: Sem): int {
    if i == Acquire(x) then 1 else if i == Release(x) then -1 else 0
  }

  function Up(i: Instr, up: Instr, down: Instr): int {
    if i == up then 1 else if i == down then -1 else 0
  }

  lemma WmutexMove(pc: PC, writeCount: int, readCount: int)
    ensures var i, w, w' := Code(pc), Weight(pc), Weight(Following(pc, writeCount, readCount));
            w'.wmutex - w.wmutex == Gain(i, Wmutex)
  {
  }

  lemma WriteGuardMove(pc: PC, writeCount: int, readCount: int)
    ensures var i, w, w' := Code(pc), Weight(pc), Weight(Following(pc, writeCount, readCount));
            w'.writeGuard - w.writeGuard == Gain(i, WriteCountGuard)
  {
  }

  lemma RmutexMove(pc: PC, writeCount: int, readCount: int)
    ensures var i, w, w' := Code(pc), Weight(pc), Weight(Following(pc, writeCount, readCount));
            w'.rmutex - w.rmutex == Gain(i, Rmutex)
  {
  }

  lemma ReadGuardMove(pc: PC, writeCount: int, readCount: int)
    ensures var i, w, w' := Code(pc), Weight(pc), Weight(Following(pc, writeCount, readCount));
            w'.readGuard - w.readGuard == Gain(i, ReadCountGuard)
  {
  }

  lemma DataMove(pc: PC, writeCount: int, readCount: int)
    ensures var i, w, w' := Code(pc), Weight(pc), Weight(Following(pc, writeCount, readCount));
            w'.data - w.data == Gain(i, DataGuard)
  {
  }

  /** Threads count themselves with the guard held. */
  lemma CountsGuarded(pc: PC)
    ensures var i, w := Code(pc), Weight(pc);
            && (i == CountUp || i == CountDown ==> w.writeGuard == 1 && w.barring == w.admitting == 0)
            && (i == ReadersUp || i == ReadersDown ==> w.readGuard == 1 && w.taking == w.giving == 0)
  {
  }

  lemma CountWritersMove(pc: PC, writeCount: int, readCount: int)
    ensures var i, w, w' := Code(pc), Weight(pc), Weight(Following(pc, writeCount, readCount));
            w'.counted - w.counted == Up(i, CountUp, CountDown)
  {
  }

  /** The first writer is to bar the readers, the last one to admit them. */
  lemma BarMove(pc: PC, writeCount: int, readCount: int)
    ensures var i, w, w' := Code(pc), Weight(pc), Weight(Following(pc, writeCount, readCount));
            && w'.barring == One(i == CountUp && writeCount == 1)
            && w'.admitting == One(i == CountDown && writeCount == 0)
  {
  }

  lemma CountReadersMove(pc: PC, writeCount: int, readCount: int)
    ensures var i, w, w' := Code(pc), Weight(pc), Weight(Following(pc, writeCount, readCount));
            w'.readers - w.readers == Up(i, ReadersUp, ReadersDown)
  {
  }

  lemma TakeMove(pc: PC, writeCount: int, readCount: int)
    ensures var i, w, w' := Code(pc), Weight(pc), Weight(Following(pc, writeCount, readCount));
            && w'.taking == One(i == ReadersUp && readCount == 1)
            && w'.giving == One(i == ReadersDown && readCount == 0)
  {
  }

  lemma ReadTryMove(pc: PC, writeCount: int, readCount: int)
    ensures var i, w, w' := Code(pc), Weight(pc), Weight(Following(pc, writeCount, readCount));
            w'.readTry - w.readTry + w.barring - w.admitting == Gain(i, ReadTry)
  {
  }

  lemma ResourceMove(pc: PC, writeCount: int, readCount: int)
    ensures var i, w, w' := Code(pc), Weight(pc), Weight(Following(pc, writeCount, readCount));
            w'.inWrite - w.inWrite + w.taking - w.giving == Gain(i, Resource)
  {
  }

  lemma ShiftWriters(sh: Shared, pc: PC, value: int, sh': Shared, pc': PC, rest: Tally)
    requires Shift(sh, pc, value, sh', pc', rest)
    requires WritersGood(sh, Add(rest, Weight(pc)))
    ensures WritersGood(sh', Add(rest, Weight(pc')))
  {
    hide Weight, Code, Following;
    WmutexMove(pc, sh'.writeCount, sh'.readCount);
    WriteGuardMove(pc, sh'.writeCount, sh'.readCount);
    CountsGuarded(pc);
    CountWritersMove(pc, sh'.writeCount, sh'.readCount);
    BarMove(pc, sh'.writeCount, sh'.readCount);
  }

  lemma ShiftReaders(sh: Shared, pc: PC, value: int, sh': Shared, pc': PC, rest: Tally)
    requires Shift(sh, pc, value, sh', pc', rest)
    requires ReadersGood(sh, Add(rest, Weight(pc)))
    ensures ReadersGood(sh', Add(rest, Weight(pc')))
  {
    hide Weight, Code, Following;
    RmutexMove(pc, sh'.writeCount, sh'.readCount);
    ReadGuardMove(pc, sh'.writeCount, sh'.readCount);
    CountsGuarded(pc);
    CountReadersMove(pc, sh'.writeCount, sh'.readCount);
    TakeMove(pc, sh'.writeCount, sh'.readCount);
  }

  lemma ShiftReadTry(sh: Shared, pc: PC, value: int, sh': Shared, pc': PC, rest: Tally)
    requires Shift(sh, pc, value, sh', pc', rest)
    requires WritersGood(sh, Add(rest, Weight(pc))) && ReadTryGood(sh, Add(rest, Weight(pc)))
    ensures ReadTryGood(sh', Add(rest, Weight(pc')))
  {
    hide Weight, Code, Following;
    CountsGuarded(pc);
    CountWritersMove(pc, sh'.writeCount, sh'.readCount);
    BarMove(pc, sh'.writeCount, sh'.readCount);
    ReadTryMove(pc, sh'.writeCount, sh'.readCount);
  }

  lemma ShiftResource(sh: Shared, pc: PC, value: int, sh': Shared, pc': PC, rest: Tally)
    requires Shift(sh, pc, value, sh', pc', rest)
    requires ReadersGood(sh, Add(rest, Weight(pc))) && ResourceGood(sh, Add(rest, Weight(pc)))
    ensures ResourceGood(sh', Add(rest, Weight(pc')))
  {
    hide Weight, Code, Following;
    CountsGuarded(pc);
    CountReadersMove(pc, sh'.writeCount, sh'.readCount);
    TakeMove(pc, sh'.writeCount, sh'.readCount);
    ResourceMove(pc, sh'.writeCount, sh'.readCount);
  }

  lemma ShiftData(sh: Shared, pc: PC, value: int, sh': Shared, pc': PC, rest: Tally)
    requires Shift(sh, pc, value, sh', pc', rest)
    requires DataGood(sh, Add(rest, Weight(pc)))
    ensures DataGood(sh', Add(rest, Weight(pc')))
  {
    hide Weight, Code, Following;
    DataMove(pc, sh'.writeCount, sh'.readCount);
  }

  lemma ShiftGood(sh: Shared, pc: PC, value: int, sh': Shared, pc': PC, rest: Tally)
    requires Shift(sh, pc, value, sh', pc', rest) && Good(sh, Add(rest, Weight(pc)))
    ensures Good(sh', Add(rest, Weight(pc')))
  {
    hide Weight, Shift, WritersGood, ReadersGood, ReadTryGood, ResourceGood, DataGood;
    ShiftWriters(sh, pc, value, sh', pc', rest);
    ShiftReaders(sh, pc, value, sh', pc', rest);
    ShiftReadTry(sh, pc, value, sh', pc', rest);
    ShiftResource(sh, pc, value, sh', pc', rest);
    ShiftData(sh, pc, value, sh', pc', rest);
  }

  lemma InvNext(s: State, s': State, t: nat)
    requires Inv(s) && Next(s, s', t)
    ensures Inv(s')
  {
    hide Good, Total, Nested;
    TotalSplit(s.threads, t, s'.threads[t]);
    TotalNested(s.threads[t := Idle]);
    if Begin(s, s', t) {
      assert Weight(Idle) == Weight(WaitReadTry) == Weight(EntryWmutex);
    } else {
      hide Weight, Code, Effect, Following, Enabled;
      ShiftGood(s.sh, s.threads[t], s.values[t], s'.sh, s'.threads[t], Rest(s.threads, t));
    }
  }

  lemma StartGood(sh: Shared, n: Tally)
    requires n == NOTHING && sh.sems == Sems(1, 1, 1, 1, 1, 1, 1)
    requires sh.writeCount == sh.readCount == 0 && sh.written == sh.taken + sh.data
    ensures Good(sh, n)
  {
  }

  lemma InitInv(s: State)
    requires Init(s)
    ensures Inv(s)
  {
    hide Total, Good;
    NobodyHolds(s.threads);
    assert s.sh.written == s.sh.taken + s.sh.data;
    StartGood(s.sh, Total(s.threads));
  }

  lemma {:induction false} RunInv(run: Run<State>)
    requires IsRun(run)
    ensures Inv(run.s)
  {
    hide Inv, Init, Next;
    match run
    case Start(s) => InitInv(s);
    case Then(before, s) =>
      RunInv(before);
      var t :| Next(before.s, s, t);
      InvNext(before.s, s, t);
  }

  lemma {:induction false} NobodyHolds(threads: seq<PC>)
    requires forall t :: 0 <= t < |threads| ==> threads[t] == Idle
    ensures Total(threads) == NOTHING
  {
    if threads != [] {
      NobodyHolds(threads[..|threads| - 1]);
      assert Weight(threads[|threads| - 1]) == NOTHING;
    }
    hide Weight;
  }

  /** Two threads and the rest. */
  lemma TotalPair(threads: seq<PC>, t: nat, u: nat) returns (rest: Tally)
    requires t < |threads| && u < |threads| && t != u
    ensures Total(threads) == Add(rest, Add(Weight(threads[t]), Weight(threads[u]))) && Nested(rest)
  {
    hide Weight, Total, Nested;
    TotalSplit(threads, t, Idle);
    TotalSplit(threads[t := Idle], u, Idle);
    rest := Rest(threads[t := Idle], u);
    TotalNested(threads[t := Idle][u := Idle]);
  }

  /** A reachable state, seen from one thread. */
  lemma {:induction false} View(run: Run<State>, t: nat) returns (rest: Tally)
    requires IsRun(run) && t < |run.s.threads|
    ensures Total(run.s.threads) == Add(rest, Weight(run.s.threads[t])) && Nested(rest)
    ensures Good(run.s.sh, Add(rest, Weight(run.s.threads[t])))
  {
    hide IsRun, Total, Good, Weight, Nested;
    RunInv(run);
    rest := Rest(run.s.threads, t);
    TotalSplit(run.s.threads, t, Idle);
    TotalNested(run.s.threads[t := Idle]);
  }

  /* ----- safety ----- */

  /** The thread is between the acquisition of `resource` and its release: for a writer by itself, for a
      reader by the first and the last of the group. */
  predicate Writing(pc: PC) {
    pc.WriteLock? || pc.Write? || pc.WriteUnlock? || pc.ReleaseResource?
  }

  predicate Reading(pc: PC) {
    || pc.EntryReadUnguard? || pc.EntryRmutexRelease? || pc.ReleaseReadTry? || pc.ReadLock? || pc.Read?
    || pc.ReadUnlock? || pc.ExitRmutex? || pc.ExitReadGuard? || pc.UncountReader?
  }

  lemma HoldsResource(pc: PC)
    ensures Writing(pc) ==> Weight(pc).inWrite == 1 && Weight(pc).taking == 0
    ensures Reading(pc) ==> Weight(pc).readers == 1 && Weight(pc).taking == 0
  {
  }

  lemma ExclusionOf(sh: Shared, pc: PC, pc': PC, rest: Tally)
    requires Good(sh, Add(rest, Add(Weight(pc), Weight(pc')))) && Nested(rest) && Writing(pc)
    ensures !Writing(pc') && !Reading(pc')
  {
    HoldsResource(pc);
    HoldsResource(pc');
    hide Weight, Writing, Reading, WritersGood, ReadTryGood, DataGood;
  }

  /** At most one writer is writing, and then no reader is reading. */
  lemma {:induction false} Exclusion(run: Run<State>, t: nat, u: nat)
    requires IsRun(run) && t < |run.s.threads| && u < |run.s.threads| && t != u && Writing(run.s.threads[t])
    ensures !Writing(run.s.threads[u]) && !Reading(run.s.threads[u])
  {
    hide IsRun, Total, Good, Weight, Nested, Writing, Reading;
    RunInv(run);
    var rest := TotalPair(run.s.threads, t, u);
    ExclusionOf(run.s.sh, run.s.threads[t], run.s.threads[u], rest);
  }

  lemma ReleaseOf(sh: Shared, pc: PC, rest: Tally)
    requires Good(sh, Add(rest, Weight(pc))) && Nested(rest) && Code(pc).Release?
    ensures Get(sh.sems, Code(pc).x) == 0
  {
  }

  /** No binary semaphore is released while it is free. */
  lemma {:induction false} NoReleaseWhileFree(run: Run<State>, t: nat)
    requires IsRun(run) && t < |run.s.threads| && Code(run.s.threads[t]).Release?
    ensures Get(run.s.sh.sems, Code(run.s.threads[t]).x) == 0
  {
    hide IsRun, Total, Good, Weight, Nested, Code, Get;
    var rest := View(run, t);
    ReleaseOf(run.s.sh, run.s.threads[t], rest);
  }

  /** What readers take is what writers wrote, in order. */
  lemma {:induction false} TakenInOrder(run: Run<State>)
    requires IsRun(run)
    ensures run.s.sh.taken <= run.s.sh.written && run.s.sh.written == run.s.sh.taken + run.s.sh.data
  {
    hide IsRun, Total, WritersGood, ReadersGood, ReadTryGood, ResourceGood;
    RunInv(run);
  }

  /* ----- writers first ----- */

  /** The writers hold `readTry`: from its acquisition by the first until its release by the last. */
  ghost predicate WritersHold(s: State) {
    GroupHolds(Total(s.threads))
  }

  predicate GroupHolds(n: Tally) {
    n.counted > n.barring || n.admitting > 0
  }

  /** A writer that has announced itself, and is past `BarReaders`, is one of a group that holds it. */
  lemma {:induction false} AnnouncedHolds(run: Run<State>, t: nat)
    requires IsRun(run) && t < |run.s.threads|
    requires Weight(run.s.threads[t]).counted > 0 && run.s.threads[t] != BarReaders
    ensures WritersHold(run.s)
  {
    hide IsRun, Total, Good;
    var rest := View(run, t);
  }

  lemma BarredOf(sh: Shared, pc: PC, rest: Tally)
    requires Good(sh, Add(rest, Weight(pc))) && GroupHolds(Add(rest, Weight(pc))) && Nested(rest)
    ensures Weight(pc).readTry == 0 && sh.sems.readTry == 0
  {
  }

  /** Only a reader that holds `readTry` counts itself in or gets inside. */
  lemma EntryNeedsReadTry(pc: PC, writeCount: int, readCount: int)
    ensures Code(pc) == ReadersUp ==> Weight(pc).readTry == 1
    ensures Reading(Following(pc, writeCount, readCount)) ==> Reading(pc) || Weight(pc).readTry == 1
  {
  }

  lemma WhoBars(pc: PC)
    ensures Weight(pc).barring > 0 ==> Code(pc) == Acquire(ReadTry)
    ensures Weight(pc).admitting > 0 ==> pc == AdmitReaders
  {
  }

  lemma PreferenceOf(sh: Shared, pc: PC, value: int, sh': Shared, pc': PC, rest: Tally)
    requires Shift(sh, pc, value, sh', pc', rest) && Weight(pc).readTry == 0 && sh.sems.readTry == 0
    requires WritersGood(sh, Add(rest, Weight(pc))) && GroupHolds(Add(rest, Weight(pc)))
    ensures sh'.readCount <= sh.readCount && (Reading(pc') ==> Reading(pc))
    ensures GroupHolds(Add(rest, Weight(pc'))) || pc == AdmitReaders
  {
    hide Weight, Code, Following, Reading;
    EntryNeedsReadTry(pc, sh'.writeCount, sh'.readCount);
    WhoBars(pc);
    CountsGuarded(pc);
    CountWritersMove(pc, sh'.writeCount, sh'.readCount);
    BarMove(pc, sh'.writeCount, sh'.readCount);
  }

  /** While they do, no reader is between the acquisition and the release of `readTry`, nor can acquire it. */
  lemma {:induction false} ReadersBarred(run: Run<State>, u: nat)
    requires IsRun(run) && WritersHold(run.s) && u < |run.s.threads|
    ensures Weight(run.s.threads[u]).readTry == 0 && run.s.sh.sems.readTry == 0
  {
    hide IsRun, Total, Good, Weight, Nested;
    var rest := View(run, u);
    BarredOf(run.s.sh, run.s.threads[u], rest);
  }

  /** So readers only leave, and it stays so until the last writer admits them again. */
  lemma {:induction false} WritersPreferred(run: Run<State>, s': State, u: nat)
    requires IsRun(run) && WritersHold(run.s) && Next(run.s, s', u)
    ensures s'.sh.readCount <= run.s.sh.readCount
    ensures Reading(s'.threads[u]) ==> Reading(run.s.threads[u])
    ensures WritersHold(s') || run.s.threads[u] == AdmitReaders
  {
    hide IsRun, Total, Nested, WritersGood, ReadersGood, ReadTryGood, ResourceGood, DataGood;
    ReadersBarred(run, u);
    var rest := View(run, u);
    TotalSplit(run.s.threads, u, s'.threads[u]);
    if Begin(run.s, s', u) {
      assert Weight(Idle) == Weight(WaitReadTry) == Weight(EntryWmutex);
    } else {
      hide Weight, Code, Effect, Following, Enabled, GroupHolds, Reading;
      PreferenceOf(run.s.sh, run.s.threads[u], run.s.values[u], s'.sh, s'.threads[u], rest);
    }
  }

  /* ----- no deadlock ----- */

  datatype Hold = OfData | OfWrite | OfRmutex | OfReadTry | OfReaders | OfWmutex | OfWriters

  function Part(n: Tally, x: Hold): nat {
    match x
    case OfData => n.data
    case OfWrite => n.inWrite
    case OfRmutex => n.rmutex
    case OfReadTry => n.readTry
    case OfReaders => n.readers
    case OfWmutex => n.wmutex
    case OfWriters => n.counted
  }

  lemma {:induction false} Holder(threads: seq<PC>, x: Hold) returns (t: nat)
    requires Part(Total(threads), x) > 0
    ensures t < |threads| && Part(Weight(threads[t]), x) > 0
  {
    hide Weight;
    if Part(Weight(threads[|threads| - 1]), x) > 0 {
      t := |threads| - 1;
    } else {
      t := Holder(threads[..|threads| - 1], x);
    }
  }

  predicate CanStep(s: State, t: nat) {
    t < |s.threads| && s.threads[t] != Idle && Enabled(s.sh, Code(s.threads[t]))
  }

  /** Holds in the order in which threads take them; nothing inside `x` is held. */
  predicate Innermost(n: Tally, x: Hold) {
    && Part(n, x) > 0
    && (!x.OfData? ==> n.data == 0)
    && (!x.OfData? && !x.OfWrite? ==> n.inWrite == 0)
    && (x.OfReadTry? || x.OfReaders? || x.OfWmutex? || x.OfWriters? ==> n.rmutex == 0)
    && (x.OfReaders? || x.OfWmutex? || x.OfWriters? ==> n.readTry == 0)
    && (x.OfWmutex? || x.OfWriters? ==> n.readers == 0)
    && (x.OfWriters? ==> n.wmutex == 0)
  }

  lemma InnermostOf(sh: Shared, pc: PC, rest: Tally, x: Hold)
    requires Good(sh, Add(rest, Weight(pc))) && Nested(rest)
    requires Part(Weight(pc), x) > 0 && Innermost(Add(rest, Weight(pc)), x)
    ensures pc != Idle && Enabled(sh, Code(pc))
  {
  }

  /** A thread that holds the innermost of what is held can go on. */
  lemma {:induction false} InnermostSteps(run: Run<State>, x: Hold) returns (t: nat)
    requires IsRun(run) && Innermost(Total(run.s.threads), x)
    ensures CanStep(run.s, t)
  {
    hide IsRun, Total, Good, Weight, Nested, Code, Enabled, Part;
    t := Holder(run.s.threads, x);
    var rest := View(run, t);
    InnermostOf(run.s.sh, run.s.threads[t], rest, x);
  }

  lemma OutermostOf(sh: Shared, pc: PC, rest: Tally)
    requires Good(sh, Add(rest, Weight(pc))) && Nested(rest) && pc != Idle
    requires var n := Add(rest, Weight(pc));
             n.data == n.inWrite == n.rmutex == n.readTry == n.readers == n.wmutex == n.counted == 0
    ensures Enabled(sh, Code(pc))
  {
  }

  /** In every reachable state with an unfinished thread, some unfinished thread can go on. */
  lemma {:induction false} NoDeadlock(run: Run<State>, u: nat) returns (t: nat, s': State)
    requires IsRun(run) && u < |run.s.threads| && run.s.threads[u] != Idle
    ensures t < |run.s.threads| && run.s.threads[t] != Idle && Next(run.s, s', t)
  {
    hide IsRun, Code, Enabled, Effect, Following, Total;
    t := SomeoneSteps(run, u);
    var sh := Effect(run.s.sh, Code(run.s.threads[t]), run.s.values[t]);
    s' := run.s.(sh := sh, threads := run.s.threads[t := Following(run.s.threads[t], sh.writeCount, sh.readCount)]);
  }

  lemma {:induction false} SomeoneSteps(run: Run<State>, u: nat) returns (t: nat)
    requires IsRun(run) && u < |run.s.threads| && run.s.threads[u] != Idle
    ensures CanStep(run.s, t) && |run.s.values| == |run.s.threads|
  {
    hide IsRun, Total, Good, Weight, Nested, Code, Enabled;
    RunInv(run);
    var n := Total(run.s.threads);
    if n.data > 0 {
      t := InnermostSteps(run, OfData);
    } else if n.inWrite > 0 {
      t := InnermostSteps(run, OfWrite);
    } else if n.rmutex > 0 {
      t := InnermostSteps(run, OfRmutex);
    } else if n.readTry > 0 {
      t := InnermostSteps(run, OfReadTry);
    } else if n.readers > 0 {
      t := InnermostSteps(run, OfReaders);
    } else if n.wmutex > 0 {
      t := InnermostSteps(run, OfWmutex);
    } else if n.counted > 0 {
      t := InnermostSteps(run, OfWriters);
    } else {
      t := u;
      var rest := View(run, u);
      OutermostOf(run.s.sh, run.s.threads[u], rest);
    }
  }
}

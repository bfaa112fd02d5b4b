/** LightweightSemaphore: a counter in user space over a kernel semaphore.  One transition for each
    atomic access of the counter and each operation of the kernel semaphore; any number of threads. */
module SemaphoreModel {
  import opened Runs
  import opened Counting

  const SPINS := 10000

  /** What a thread does when an attempt to take the counter down fails: `tryWait` gives up, `wait` has
      some attempts left. */
  datatype Mode = Trying | Waiting(left: nat)

  datatype PC =
    | Idle
    | Load(mode: Mode)
    | Cas(mode: Mode, seen: int)
    | Subtract
    | Sleeping
    | Releasing(owed: nat)             // inside signal, with this many releases to go

  /** `signalled` and `passed` count the permits given and taken since the start; both are history. */
  datatype State = State(count: int, tokens: nat, threads: seq<PC>, initial: nat, signalled: nat, passed: nat)

  ghost predicate Init(s: State) {
    && s.count == s.initial && s.tokens == 0 && s.signalled == 0 && s.passed == 0
    && forall t :: 0 <= t < |s.threads| ==> s.threads[t] == Idle
  }

  function AfterFail(mode: Mode): PC {
    match mode
    case Trying => Idle
    case Waiting(left) => if left == 0 then Subtract else Load(Waiting(left - 1))
  }

  function At(s: State, t: nat, pc: PC): State
    requires t < |s.threads|
  {
    s.(threads := s.threads[t := pc])
  }

  ghost predicate Begin(s: State, s': State, t: nat) {
    t < |s.threads| && s.threads[t] == Idle && (s' == At(s, t, Load(Trying)) || s' == At(s, t, Load(Waiting(SPINS))))
  }

  ghost predicate LoadCount(s: State, s': State, t: nat) {
    && t < |s.threads| && s.threads[t].Load?
    && s' == At(s, t, if s.count > 0 then Cas(s.threads[t].mode, s.count) else AfterFail(s.threads[t].mode))
  }

  ghost predicate CasCount(s: State, s': State, t: nat) {
    && t < |s.threads| && s.threads[t].Cas?
    && s' == if s.count == s.threads[t].seen
             then At(s, t, Idle).(count := s.count - 1, passed := s.passed + 1)
             else At(s, t, AfterFail(s.threads[t].mode))
  }

  ghost predicate FetchSub(s: State, s': State, t: nat) {
    && t < |s.threads| && s.threads[t] == Subtract
    && s' == if s.count <= 0 then At(s, t, Sleeping).(count := s.count - 1)
             else At(s, t, Idle).(count := s.count - 1, passed := s.passed + 1)
  }

  ghost predicate TakeToken(s: State, s': State, t: nat) {
    && t < |s.threads| && s.threads[t] == Sleeping && s.tokens > 0
    && s' == At(s, t, Idle).(tokens := s.tokens - 1, passed := s.passed + 1)
  }

  ghost predicate FetchAdd(s: State, s': State, t: nat, n: nat) {
    && t < |s.threads| && s.threads[t] == Idle
    && var toRelease := if -s.count < n then -s.count else n;
       s' == At(s, t, Releasing(if toRelease > 0 then toRelease else 0)).(count := s.count + n, signalled := s.signalled + n)
  }

  ghost predicate Release(s: State, s': State, t: nat) {
    && t < |s.threads| && s.threads[t].Releasing? && s.threads[t].owed > 0
    && s' == At(s, t, Releasing(s.threads[t].owed - 1)).(tokens := s.tokens + 1)
  }

  ghost predicate Return(s: State, s': State, t: nat) {
    t < |s.threads| && s.threads[t] == Releasing(0) && s' == At(s, t, Idle)
  }

  ghost predicate WaitNext(s: State, s': State, t: nat) {
    || Begin(s, s', t) || LoadCount(s, s', t) || CasCount(s, s', t) || FetchSub(s, s', t) || TakeToken(s, s', t)
  }

  ghost predicate SignalNext(s: State, s': State, t: nat) {
    (exists n :: FetchAdd(s, s', t, n)) || Release(s, s', t) || Return(s, s', t)
  }

  ghost predicate Next(s: State, s': State, t: nat) {
    WaitNext(s, s', t) || SignalNext(s, s', t)
  }

  ghost predicate Steps(s: State, s': State) {
    exists t :: Next(s, s', t)
  }

  ghost predicate IsRun(run: Run<State>)
    decreases run, 0
  {
    match run
    case Start(s) => Init(s)
    case Then(before, s) => Extends(before, s)
  }

  /** One more transition at the end of a run. */
  ghost predicate Extends(before: Run<State>, s: State)
    decreases before, 1
  {
    IsRun(before) && Steps(before.s, s)
  }

  /* ----- the invariant ----- */

  function Sleeps(pc: PC): nat {
    if pc == Sleeping then 1 else 0
  }

  function Owes(pc: PC): nat {
    if pc.Releasing? then pc.owed else 0
  }

  ghost function Sleepers(s: State): nat {
    Sum(s.threads, Sleeps)
  }

  ghost function Owed(s: State): nat {
    Sum(s.threads, Owes)
  }

  function Deficit(count: int): nat {
    if count < 0 then -count else 0
  }

  predicate Sound(pc: PC) {
    pc.Cas? ==> pc.seen > 0
  }

  ghost predicate Inv(s: State) {
    && Sleepers(s) - s.tokens - Owed(s) == Deficit(s.count)
    && s.initial + s.signalled - s.passed == s.count + Sleepers(s)
    && forall t :: 0 <= t < |s.threads| ==> Sound(s.threads[t])
  }

  lemma InvInit(s: State)
    requires Init(s)
    ensures Inv(s)
  {
    SumZero(s.threads, Sleeps);
    SumZero(s.threads, Owes);
  }

  lemma Moves(s: State, t: nat, pc: PC)
    requires t < |s.threads|
    ensures Sleepers(At(s, t, pc)) == Sleepers(s) - Sleeps(s.threads[t]) + Sleeps(pc)
    ensures Owed(At(s, t, pc)) == Owed(s) - Owes(s.threads[t]) + Owes(pc)
  {
    SumUpdate(s.threads, t, pc, Sleeps);
    SumUpdate(s.threads, t, pc, Owes);
  }

  lemma InvWait(s: State, s': State, t: nat)
    requires Inv(s) && WaitNext(s, s', t)
    ensures Inv(s')
  {
    Moves(s, t, s'.threads[t]);
    assert Sound(s.threads[t]) && Sound(s'.threads[t]);
  }

  lemma InvSignal(s: State, s': State, t: nat)
    requires Inv(s) && SignalNext(s, s', t)
    ensures Inv(s')
  {
    Moves(s, t, s'.threads[t]);
    if s.threads[t] == Idle {
      var n :| FetchAdd(s, s', t, n);
      assert Owed(s') == Owed(s) + Deficit(s.count) - Deficit(s.count + n);
    }
  }

  lemma InvNext(s: State, s': State, t: nat)
    requires Inv(s) && Next(s, s', t)
    ensures Inv(s')
  {
    if WaitNext(s, s', t) {
      InvWait(s, s', t);
    } else {
      InvSignal(s, s', t);
    }
  }

  lemma {:induction false} RunInv(run: Run<State>)
    requires IsRun(run)
    ensures Inv(run.s)
  {
    match run
    case Start(s) => InvInit(s);
    case Then(before, s) =>
      RunInv(before);
      var t :| Next(before.s, s, t);
      InvNext(before.s, s, t);
  }

  /* ----- what the semaphore promises ----- */

  /** The value of the counting semaphore that is refined: permits given but not yet taken. */
  function Permits(s: State): int {
    s.initial + s.signalled - s.passed
  }

  /** In every run the sleepers not yet provided for are what the counter lacks; the kernel semaphore
      never holds more tokens than threads that sleep, and no more permits are taken than were given. */
  lemma {:induction false} Balance(run: Run<State>)
    requires IsRun(run)
    ensures var s := run.s;
            && Sleepers(s) - s.tokens - Owed(s) == (if s.count < 0 then -s.count else 0)
            && s.tokens + Owed(s) <= Sleepers(s)
            && s.passed <= s.initial + s.signalled
  {
    hide IsRun;
    RunInv(run);
  }

  /** Nobody sleeps beside an unused permit: when a thread sleeps and no token is there and none is on
      its way, every permit has been taken. */
  lemma {:induction false} NoLostWakeup(run: Run<State>, t: nat)
    requires IsRun(run) && t < |run.s.threads| && run.s.threads[t] == Sleeping
    requires run.s.tokens == 0 && forall u :: 0 <= u < |run.s.threads| ==> Owes(run.s.threads[u]) == 0
    ensures Permits(run.s) == 0
  {
    hide IsRun;
    RunInv(run);
    SumAtLeast(run.s.threads, t, Sleeps);
    SumZero(run.s.threads, Owes);
  }

  /** While a permit is left, not every thread sleeps in vain: a sleeper can take a token, or a thread is
      about to release one. */
  lemma {:induction false} PermitWakes(run: Run<State>, t: nat) returns (u: nat, s': State)
    requires IsRun(run) && t < |run.s.threads| && run.s.threads[t] == Sleeping && Permits(run.s) > 0
    ensures TakeToken(run.s, s', u) || Release(run.s, s', u)
  {
    hide IsRun;
    RunInv(run);
    if run.s.tokens > 0 {
      u := t;
      s' := At(run.s, t, Idle).(tokens := run.s.tokens - 1, passed := run.s.passed + 1);
    } else {
      SumAtLeast(run.s.threads, t, Sleeps);
      u := SumWitness(run.s.threads, Owes);
      s' := At(run.s, u, Releasing(run.s.threads[u].owed - 1)).(tokens := run.s.tokens + 1);
    }
  }

  predicate InWait(pc: PC) {
    (pc.Load? && pc.mode.Waiting?) || (pc.Cas? && pc.mode.Waiting?) || pc == Subtract || pc == Sleeping
  }

  predicate InTry(pc: PC) {
    (pc.Load? && pc.mode == Trying) || (pc.Cas? && pc.mode == Trying)
  }

  /** What a counting semaphore of this value allows: `wait` returns only by taking a permit that is
      there, `tryWait` takes one or none, and only a `signal` adds any. */
  ghost predicate CountingStep(value: int, value': int, pc: PC, pc': PC) {
    && (InWait(pc) && pc' == Idle ==> value > 0 && value' == value - 1)
    && (value' < value ==> value' == value - 1 && pc' == Idle && (InWait(pc) || InTry(pc)))
    && (value' > value ==> pc == Idle && pc'.Releasing?)
  }

  /** Every transition refines one of the counting semaphore, whose value is never negative. */
  lemma {:induction false} RefinesCounting(run: Run<State>, s': State, t: nat)
    requires IsRun(run) && Next(run.s, s', t)
    ensures 0 <= Permits(run.s) && 0 <= Permits(s')
    ensures CountingStep(Permits(run.s), Permits(s'), run.s.threads[t], s'.threads[t])
    ensures forall u :: 0 <= u < |run.s.threads| && u != t ==> s'.threads[u] == run.s.threads[u]
    ensures forall n :: FetchAdd(run.s, s', t, n) ==> Permits(s') == Permits(run.s) + n
  {
    hide IsRun;
    RunInv(run);
    InvNext(run.s, s', t);
  }
}

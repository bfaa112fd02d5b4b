/** The code of LightweightSemaphore, run by one thread `t` while other threads interfere.  Every atomic
    access is a step of the transition system, so each execution of these methods is a run of it. */
module SemaphoreCode {
  import opened Runs
  import opened SemaphoreModel

  /** `later` continues `run` with steps of threads other than `t`. */
  ghost predicate Others(run: Run<State>, later: Run<State>, t: nat) {
    later == run || (later.Then? && Others(run, later.before, t) && StepOfOther(later.before.s, later.s, t))
  }

  ghost predicate StepOfOther(s: State, s': State, t: nat) {
    exists u :: u != t && Next(s, s', u)
  }

  function Pc(s: State, t: nat): PC {
    if t < |s.threads| then s.threads[t] else Idle
  }

  /** The permits that thread `t` itself has given, less those it has taken. */
  ghost function Given(run: Run<State>, t: nat): int {
    match run
    case Start(_) => 0
    case Then(before, s) =>
      Given(before, t) + if Pc(s, t) != Pc(before.s, t) then Permits(s) - Permits(before.s) else 0
  }

  /** `later` continues `run`, and thread `t` has given `k` permits in between. */
  ghost predicate Gives(run: Run<State>, later: Run<State>, t: nat, k: int) {
    (forall r :: Continues(r, run) ==> Continues(r, later)) && Given(later, t) == Given(run, t) + k
  }

  /** What a thread has done so far.  A `tryWait` gives up because there is no permit or because its exchange
      is lost; the failed attempts of a `wait` are not listed. */
  datatype Act = Took | NoPermit | LostExchange | Gave(n: nat)

  function ActOf(s: State, s': State, t: nat): seq<Act> {
    match (Pc(s, t), Pc(s', t))
    case (Load(_), Idle) => [NoPermit]
    case (Cas(_, seen), Idle) => if s.count == seen then [Took] else [LostExchange]
    case (Subtract, Idle) => [Took]
    case (Sleeping, Idle) => [Took]
    case (Idle, Releasing(_)) => if s.signalled <= s'.signalled then [Gave(s'.signalled - s.signalled)] else []
    case _ => []
  }

  function Acts(run: Run<State>, t: nat): seq<Act> {
    match run
    case Start(_) => []
    case Then(before, s) => Acts(before, t) + ActOf(before.s, s, t)
  }

  lemma {:induction false} OthersGiveNothing(run: Run<State>, later: Run<State>, t: nat)
    requires IsRun(run) && Others(run, later, t) && t < |run.s.threads|
    ensures IsRun(later) && |later.s.threads| == |run.s.threads| && later.s.threads[t] == run.s.threads[t]
    ensures Gives(run, later, t, 0) && Acts(later, t) == Acts(run, t)
    decreases later
  {
    if later != run {
      OthersGiveNothing(run, later.before, t);
      var u :| u != t && Next(later.before.s, later.s, u);
      OtherThread(later.before.s, later.s, u);
    }
  }

  lemma OtherThread(s: State, s': State, u: nat)
    requires Next(s, s', u)
    ensures |s'.threads| == |s.threads| && forall t :: 0 <= t < |s.threads| && t != u ==> s'.threads[t] == s.threads[t]
  {
  }

  class LightweightSemaphore {
    var count: int
    var sema: nat                          // tokens in the kernel semaphore
    ghost var run: Run<State>

    /** Thread `t` is at `pc`. */
    ghost predicate Ready(t: nat, pc: PC)
      reads this
    {
      && IsRun(run) && run.s.count == count && run.s.tokens == sema
      && t < |run.s.threads| && run.s.threads[t] == pc
    }

    /** What thread `t` has done so far. */
    ghost function Did(t: nat): seq<Act>
      reads this`run
    {
      Acts(run, t)
    }

    constructor (initial: nat, ghost threads: nat)
      ensures forall t :: 0 <= t < threads ==> Ready(t, Idle)
      ensures Permits(run.s) == initial && run.Start?
    {
      count, sema := initial, 0;
      run := Start(State(initial, 0, seq(threads, _ => Idle), initial, 0, 0));
    }

    ghost method Commit(t: nat, s': State)
      requires IsRun(run) && Next(run.s, s', t) && Pc(s', t) != Pc(run.s, t)
      modifies this`run
      ensures IsRun(run) && run.s == s' && Gives(old(run), run, t, Permits(s') - Permits(old(run.s)))
      ensures Did(t) == old(Did(t)) + ActOf(old(run.s), s', t)
    {
      run := Then(run, s');
    }

    /** Other threads run for any finite number of steps. */
    method Interfere(ghost t: nat, ghost pc: PC)
      requires Ready(t, pc)
      modifies this
      ensures Ready(t, pc) && Others(old(run), run, t) && Gives(old(run), run, t, 0)
      ensures Did(t) == old(Did(t))
    {
      OthersGiveNothing(run, run, t);
    }

    ghost method Enter(t: nat, mode: Mode)
      requires Ready(t, Idle) && (mode == Trying || mode == Waiting(SPINS))
      modifies this`run
      ensures Ready(t, Load(mode)) && Gives(old(run), run, t, 0)
      ensures Did(t) == old(Did(t))
    {
      hide IsRun;
      Commit(t, At(run.s, t, Load(mode)));
    }

    method LoadValue(ghost t: nat, ghost mode: Mode) returns (seen: int)
      requires Ready(t, Load(mode))
      modifies this`run
      ensures Ready(t, if seen > 0 then Cas(mode, seen) else AfterFail(mode)) && Gives(old(run), run, t, 0)
      ensures Did(t) == old(Did(t)) + if seen <= 0 && mode == Trying then [NoPermit] else []
    {
      hide IsRun;
      seen := count;
      Commit(t, At(run.s, t, if seen > 0 then Cas(mode, seen) else AfterFail(mode)));
    }

    method CompareExchange(ghost t: nat, ghost mode: Mode, seen: int) returns (ok: bool)
      requires Ready(t, Cas(mode, seen))
      modifies this
      ensures Ready(t, if ok then Idle else AfterFail(mode)) && Gives(old(run), run, t, if ok then -1 else 0)
      ensures ok <==> old(count) == seen
      ensures Did(t) == old(Did(t)) + if ok then [Took] else if mode == Trying then [LostExchange] else []
    {
      hide IsRun;
      ok := count == seen;
      if ok {
        count := seen - 1;
        Commit(t, At(run.s, t, Idle).(count := count, passed := run.s.passed + 1));
      } else {
        Commit(t, At(run.s, t, AfterFail(mode)));
      }
    }

    /** `tryWait` on its own, and the first thing that `wait` does: one load and one exchange. */
    method Attempt(ghost t: nat, ghost mode: Mode) returns (ok: bool)
      requires Ready(t, Load(mode))
      modifies this
      ensures Ready(t, if ok then Idle else AfterFail(mode)) && Gives(old(run), run, t, if ok then -1 else 0)
      ensures ok ==> Did(t) == old(Did(t)) + [Took]
      ensures !ok && mode != Trying ==> Did(t) == old(Did(t))
      ensures !ok && mode == Trying ==> Did(t) == old(Did(t)) + [NoPermit] || Did(t) == old(Did(t)) + [LostExchange]
    {
      hide IsRun, Others, Continues, Did;
      Interfere(t, Load(mode));
      var seen := LoadValue(t, mode);
      ok := false;
      if seen > 0 {
        Interfere(t, Cas(mode, seen));
        ok := CompareExchange(t, mode, seen);
      }
    }

    /** It takes a permit or none. */
    method TryWait(ghost t: nat) returns (ok: bool)
      requires Ready(t, Idle)
      modifies this
      ensures Ready(t, Idle) && Gives(old(run), run, t, if ok then -1 else 0)
      ensures ok ==> Did(t) == old(Did(t)) + [Took]
      ensures !ok ==> Did(t) == old(Did(t)) + [NoPermit] || Did(t) == old(Did(t)) + [LostExchange]
    {
      hide IsRun, Continues, Did;
      Enter(t, Trying);
      ok := Attempt(t, Trying);
    }

    method FetchSubtract(ghost t: nat) returns (seen: int)
      requires Ready(t, Subtract)
      modifies this
      ensures Ready(t, if seen <= 0 then Sleeping else Idle) && Gives(old(run), run, t, if seen <= 0 then 0 else -1)
      ensures seen == old(count) && count == seen - 1
      ensures Did(t) == old(Did(t)) + if seen <= 0 then [] else [Took]
    {
      hide IsRun;
      seen := count;
      count := count - 1;
      if seen <= 0 {
        Commit(t, At(run.s, t, Sleeping).(count := count));
      } else {
        Commit(t, At(run.s, t, Idle).(count := count, passed := run.s.passed + 1));
      }
    }

    /** The kernel semaphore's wait; without a token the thread sleeps on. */
    method KernelWait(ghost t: nat) returns (asleep: bool)
      requires Ready(t, Sleeping)
      modifies this
      ensures Ready(t, if asleep then Sleeping else Idle) && Gives(old(run), run, t, if asleep then 0 else -1)
      ensures Did(t) == old(Did(t)) + if asleep then [] else [Took]
      ensures asleep ==> sema == 0
    {
      hide IsRun;
      Interfere(t, Sleeping);
      asleep := sema == 0;
      if !asleep {
        sema := sema - 1;
        Commit(t, At(run.s, t, Idle).(tokens := sema, passed := run.s.passed + 1));
      }
    }

    /** The loop of at most SPINS attempts, then the subtraction that may put the thread to sleep. */
    method WaitWithPartialSpinning(ghost t: nat) returns (asleep: bool)
      requires Ready(t, AfterFail(Waiting(SPINS)))
      modifies this
      ensures Ready(t, if asleep then Sleeping else Idle) && Gives(old(run), run, t, if asleep then 0 else -1)
      ensures Did(t) == old(Did(t)) + if asleep then [] else [Took]
      ensures asleep ==> sema == 0
    {
      hide IsRun, Others, Continues, Did;
      var spin := SPINS;
      while spin > 0
        invariant 0 <= spin <= SPINS && Ready(t, AfterFail(Waiting(spin))) && Gives(old(run), run, t, 0)
        invariant Did(t) == old(Did(t))
      {
        spin := spin - 1;
        var ok := Attempt(t, Waiting(spin));
        if ok {
          return false;
        }
      }
      Interfere(t, Subtract);
      var seen := FetchSubtract(t);
      asleep := seen <= 0;
      if asleep {
        asleep := KernelWait(t);
      }
    }

    /** `wait` takes exactly one permit, or has not returned: the thread then sleeps. */
    method Wait(ghost t: nat) returns (asleep: bool)
      requires Ready(t, Idle)
      modifies this
      ensures Ready(t, if asleep then Sleeping else Idle) && Gives(old(run), run, t, if asleep then 0 else -1)
      ensures Did(t) == old(Did(t)) + if asleep then [] else [Took]
      ensures asleep ==> sema == 0
    {
      hide IsRun, Continues, Did;
      Enter(t, Waiting(SPINS));
      var ok := Attempt(t, Waiting(SPINS));
      asleep := false;
      if !ok {
        asleep := WaitWithPartialSpinning(t);
      }
    }

    method FetchAndAdd(ghost t: nat, n: nat) returns (seen: int)
      requires Ready(t, Idle)
      modifies this
      ensures Ready(t, Releasing(Min(Deficit(seen), n))) && Gives(old(run), run, t, n)
      ensures seen == old(count) && count == seen + n
      ensures Did(t) == old(Did(t)) + [Gave(n)]
    {
      hide IsRun;
      seen := count;
      count := count + n;
      ghost var s' := At(run.s, t, Releasing(Min(Deficit(seen), n))).(count := count, signalled := run.s.signalled + n);
      assert FetchAdd(run.s, s', t, n);
      Commit(t, s');
    }

    method KernelSignal(ghost t: nat, ghost owed: nat)
      requires Ready(t, Releasing(owed)) && owed > 0
      modifies this
      ensures Ready(t, Releasing(owed - 1)) && Gives(old(run), run, t, 0) && sema == old(sema) + 1
      ensures Did(t) == old(Did(t))
    {
      hide IsRun;
      sema := sema + 1;
      Commit(t, At(run.s, t, Releasing(owed - 1)).(tokens := sema));
    }

    ghost method Leave(t: nat)
      requires Ready(t, Releasing(0))
      modifies this`run
      ensures Ready(t, Idle) && Gives(old(run), run, t, 0)
      ensures Did(t) == old(Did(t))
    {
      hide IsRun;
      Commit(t, At(run.s, t, Idle));
    }

    /** `signal` gives exactly `n` permits, and releases as many sleepers as the counter lacked. */
    method Signal(ghost t: nat, n: nat)
      requires Ready(t, Idle)
      modifies this
      ensures Ready(t, Idle) && Gives(old(run), run, t, n)
      ensures Did(t) == old(Did(t)) + [Gave(n)]
    {
      hide IsRun, Others, Continues, Did;
      Interfere(t, Idle);
      var seen := FetchAndAdd(t, n);
      var toRelease := if -seen < n then -seen else n;
      while toRelease > 0
        invariant Ready(t, Releasing(if toRelease > 0 then toRelease else 0)) && Gives(old(run), run, t, n)
        invariant Did(t) == old(Did(t)) + [Gave(n)]
      {
        Interfere(t, Releasing(toRelease));
        KernelSignal(t, toRelease);
        toRelease := toRelease - 1;
      }
      Leave(t);
    }
  }

  function Min(a: nat, b: nat): nat {
    if a <= b then a else b
  }
}

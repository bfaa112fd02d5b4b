/** Whether the hazard slots are enough: exactly when there are at most as many threads as slots, although
    threads give slots up and claim others while one searches. */
module HazardSlots {
  import opened Counting
  import opened Options
  import opened Runs
  import opened HazardModel
  import opened HazardInvariant
  import opened HazardTheorems

  /* ----- threads spread over the slots ----- */

  /** The slot a thread holds, or the one it is about to look at. */
  function Level(th: Thread): int {
    if th.slot.Some? then th.slot.value else if th.pc.Claim? then th.pc.i else -1
  }

  function AtLeast(i: int): Thread -> nat {
    (th: Thread) => if Level(th) >= i then 1 else 0
  }

  /** At slot `i` or further there are at most as many threads as remain when `i` are left behind. */
  ghost predicate Spread(threads: seq<Thread>) {
    forall i :: 0 <= i <= |threads| ==> Sum(threads, AtLeast(i)) <= |threads| - i
  }

  lemma {:induction false} SumAtMost(threads: seq<Thread>, i: int)
    ensures Sum(threads, AtLeast(i)) <= |threads|
  {
    if threads != [] {
      SumAtMost(threads[..|threads| - 1], i);
    }
  }

  lemma {:induction false} SumLess(threads: seq<Thread>, threads': seq<Thread>, i: int, j: int, u: nat)
    requires u < |threads| == |threads'|
    requires forall v :: 0 <= v < |threads| ==> AtLeast(j)(threads'[v]) <= AtLeast(i)(threads[v])
    ensures Sum(threads', AtLeast(j)) + AtLeast(i)(threads[u]) <= Sum(threads, AtLeast(i)) + AtLeast(j)(threads'[u])
    decreases |threads|
  {
    var n := |threads| - 1;
    if u < n {
      SumLess(threads[..n], threads'[..n], i, j, u);
    } else if n > 0 {
      SumLess(threads[..n], threads'[..n], i, j, 0);
    }
  }

  /** A thread that goes no further, or begins, leaves the others spread. */
  lemma SpreadStays(threads: seq<Thread>, t: nat, th: Thread)
    requires Spread(threads) && t < |threads| && (Level(th) <= Level(threads[t]) || Level(th) <= 0)
    ensures Spread(threads[t := th])
  {
    var threads' := threads[t := th];
    forall i | 0 <= i <= |threads'| ensures Sum(threads', AtLeast(i)) <= |threads'| - i {
      if i == 0 {
        SumAtMost(threads', 0);
      } else {
        SumUpdate(threads, t, th, AtLeast(i));
      }
    }
  }

  /** So does one that goes on from a slot which another thread holds. */
  lemma SpreadOn(threads: seq<Thread>, t: nat, u: nat, th: Thread)
    requires Spread(threads) && t < |threads| && u < |threads| && u != t
    requires 0 <= Level(threads[t]) == Level(threads[u]) && Level(th) == Level(threads[t]) + 1
    ensures Spread(threads[t := th])
  {
    var threads', l := threads[t := th], Level(threads[t]);
    forall i | 0 <= i <= |threads'| ensures Sum(threads', AtLeast(i)) <= |threads'| - i {
      if i == l + 1 {
        SumLess(threads, threads', l, i, u);
      } else {
        SumUpdate(threads, t, th, AtLeast(i));
      }
    }
  }

  /** Nobody has as many slots behind it as there are threads. */
  lemma LevelBelow(threads: seq<Thread>, t: nat)
    requires Spread(threads) && t < |threads|
    ensures Level(threads[t]) < |threads|
  {
    SumAtLeast(threads, t, AtLeast(|threads|));
  }

  /* ----- every step keeps them spread ----- */

  /** The thread goes no further. */
  ghost predicate StaysBack(s: State, s': State, t: Tid) {
    && t < |s.threads| == |s'.threads| && s'.threads == s.threads[t := s'.threads[t]]
    && (Level(s'.threads[t]) <= Level(s.threads[t]) || Level(s'.threads[t]) <= 0)
  }

  lemma PushStays(s: State, s': State, t: Tid)
    requires PushNext(s, s', t)
    ensures StaysBack(s, s', t)
  {
  }

  lemma LookStays(s: State, s': State, t: Tid)
    requires LookNext(s, s', t)
    ensures StaysBack(s, s', t)
  {
  }

  lemma DisposeStays(s: State, s': State, t: Tid)
    requires DisposeNext(s, s', t)
    ensures StaysBack(s, s', t)
  {
  }

  lemma RetireStays(s: State, s': State, t: Tid)
    requires RetireNext(s, s', t)
    ensures StaysBack(s, s', t)
  {
  }

  /** Going on to the next slot means that another thread holds this one. */
  lemma ClaimSpreads(s: State, s': State, t: Tid, i: nat)
    requires SlotsOk(s) && Spread(s.threads) && DoClaim(s, s', t, i)
    ensures Spread(s'.threads)
  {
    assert s.threads[t].slot.None?;
    if i < MAX_HAZARD_POINTERS && s.slots[i].id.Some? {
      var u := s.slots[i].id.value;
      SpreadOn(s.threads, t, u, s'.threads[t]);
    } else {
      SpreadStays(s.threads, t, s'.threads[t]);
    }
  }

  lemma SlotSpreads(s: State, s': State, t: Tid)
    requires SlotsOk(s) && Spread(s.threads) && SlotNext(s, s', t)
    ensures Spread(s'.threads)
  {
    if s.threads[t].pc.Claim? {
      ClaimSpreads(s, s', t, s.threads[t].pc.i);
    } else {
      SpreadStays(s.threads, t, s'.threads[t]);
    }
  }

  lemma SpreadNext(s: State, s': State, t: Tid)
    requires SlotsOk(s) && Spread(s.threads) && Next(s, s', t)
    ensures Spread(s'.threads)
  {
    hide Spread, SlotsOk, PushNext, LookNext, DisposeNext, RetireNext, SlotNext, Level;
    if SlotNext(s, s', t) {
      SlotSpreads(s, s', t);
    } else {
      if PushNext(s, s', t) {
        PushStays(s, s', t);
      } else if LookNext(s, s', t) {
        LookStays(s, s', t);
      } else if DisposeNext(s, s', t) {
        DisposeStays(s, s', t);
      } else {
        RetireStays(s, s', t);
      }
      SpreadStays(s.threads, t, s'.threads[t]);
    }
  }

  lemma InitSpread(s: State)
    requires Init(s)
    ensures Spread(s.threads)
  {
    forall i | 0 <= i <= |s.threads| ensures Sum(s.threads, AtLeast(i)) <= |s.threads| - i {
      SumZero(s.threads, AtLeast(i));
    }
  }

  lemma {:induction false} RunSpread(run: Run<State>)
    requires IsRun(run)
    ensures Spread(run.s.threads)
  {
    hide Next, Init, Spread;
    match run
    case Start(s) => InitSpread(s);
    case Then(before, s) =>
      RunSpread(before);
      RunGood(before);
      var t :| Next(before.s, s, t);
      SpreadNext(before.s, s, t);
  }

  /* ----- no exception for want of a slot ----- */

  ghost predicate NoThrow(log: seq<Event>) {
    forall k :: 0 <= k < |log| ==> !log[k].ThrowNoSlot?
  }

  lemma ThrowsAtTheEnd(s: State, s': State, t: Tid)
    requires SlotsOk(s) && SlotNext(s, s', t) && NoThrow(s.log) && !NoThrow(s'.log)
    ensures Level(s.threads[t]) >= MAX_HAZARD_POINTERS
  {
  }

  lemma PushDoesNotThrow(s: State, s': State, t: Tid)
    requires PushNext(s, s', t) && NoThrow(s.log)
    ensures NoThrow(s'.log)
  {
  }

  lemma LookDoesNotThrow(s: State, s': State, t: Tid)
    requires LookNext(s, s', t) && NoThrow(s.log)
    ensures NoThrow(s'.log)
  {
  }

  lemma DisposeDoesNotThrow(s: State, s': State, t: Tid)
    requires DisposeNext(s, s', t) && NoThrow(s.log)
    ensures NoThrow(s'.log)
  {
  }

  lemma RetireDoesNotThrow(s: State, s': State, t: Tid)
    requires RetireNext(s, s', t) && NoThrow(s.log)
    ensures NoThrow(s'.log)
  {
  }

  lemma OthersDoNotThrow(s: State, s': State, t: Tid)
    requires Next(s, s', t) && !SlotNext(s, s', t) && NoThrow(s.log)
    ensures NoThrow(s'.log)
  {
    hide NoThrow, PushNext, LookNext, DisposeNext, RetireNext, SlotNext;
    if PushNext(s, s', t) {
      PushDoesNotThrow(s, s', t);
    } else if LookNext(s, s', t) {
      LookDoesNotThrow(s, s', t);
    } else if DisposeNext(s, s', t) {
      DisposeDoesNotThrow(s, s', t);
    } else {
      RetireDoesNotThrow(s, s', t);
    }
  }

  lemma {:induction false} EnoughSlots(run: Run<State>)
    requires IsRun(run) && |run.s.threads| <= MAX_HAZARD_POINTERS
    ensures NoThrow(run.s.log)
  {
    hide Next, Init, Spread, NoThrow, SlotNext, Level;
    match run
    case Start(s) => InitQuiet(s);
    case Then(before, s) =>
      var t :| Next(before.s, s, t);
      SameThreads(before.s, s, t);
      EnoughSlots(before);
      if SlotNext(before.s, s, t) {
        if !NoThrow(s.log) {
          RunGood(before);
          RunSpread(before);
          ThrowsAtTheEnd(before.s, s, t);
          LevelBelow(before.s.threads, t);
          assert false;
        }
      } else {
        OthersDoNotThrow(before.s, s, t);
      }
  }

  lemma InitQuiet(s: State)
    requires Init(s)
    ensures NoThrow(s.log)
  {
  }

  lemma SameThreads(s: State, s': State, t: Tid)
    requires Next(s, s', t)
    ensures t < |s.threads| == |s'.threads|
  {
    hide PhaseStep, Next;
    var es := StepPhase(s, s', t);
    StepKeepsThreads(s, s', t, es);
  }

  lemma StepKeepsThreads(s: State, s': State, t: Tid, es: seq<Event>)
    requires PhaseStep(s, s', t, es)
    ensures t < |s.threads| == |s'.threads|
  {
    hide InPhase;
  }

  /* ----- one thread more than there are slots ----- */

  function Taken(k: nat): seq<Slot> {
    seq(MAX_HAZARD_POINTERS, (j: nat) => if j < k then Slot(Some(j), NULL) else Slot(None, NULL))
  }

  /** Thread `j` of the first `k` has slot `j`, and the others have not begun. */
  function Holders(n: nat, k: nat): seq<Thread> {
    seq(n, (j: nat) => if j < k then Thread(PopLoad, Some(j), []) else Thread(Idle, None, []))
  }

  function Claimed(n: nat, k: nat, log: seq<Event>): State {
    State(map[], NULL, Taken(k), map[], NULL, Holders(n, k), [], [], map[], map[], log)
  }

  /** Thread `k` is about to look at slot `i`. */
  function Looking(n: nat, k: nat, i: nat, log: seq<Event>): State
    requires k < n
  {
    Claimed(n, k, log).(threads := Holders(n, k)[k := Thread(Claim(i), None, [])])
  }

  lemma {:induction false} Extend(run: Run<State>, s': State, t: Tid) returns (longer: Run<State>)
    requires IsRun(run) && SlotNext(run.s, s', t)
    ensures IsRun(longer) && longer.s == s'
  {
    assert Next(run.s, s', t);
    assert Steps(run.s, s');
    longer := Then(run, s');
  }

  lemma {:induction false} Looks(run: Run<State>, n: nat, k: nat, i: nat, log: seq<Event>) returns (later: Run<State>)
    requires IsRun(run) && k < n && k <= MAX_HAZARD_POINTERS && i <= k && run.s == Claimed(n, k, log)
    ensures IsRun(later) && later.s == Looking(n, k, i, log + [CallPop(k)])
    decreases i
  {
    hide IsRun;
    if i == 0 {
      later := Extend(run, Looking(n, k, 0, log + [CallPop(k)]), k);
    } else {
      later := Looks(run, n, k, i - 1, log);
      var s' := Looking(n, k, i, log + [CallPop(k)]);
      assert s'.threads == later.s.threads[k := Thread(Claim(i), None, [])];
      later := Extend(later, s', k);
    }
  }

  lemma {:induction false} Claims(n: nat, k: nat) returns (run: Run<State>)
    requires k <= n && k <= MAX_HAZARD_POINTERS
    ensures IsRun(run) && run.s == Claimed(n, k, run.s.log)
    decreases k
  {
    hide IsRun;
    if k == 0 {
      run := StartIdle(n);
    } else {
      run := Claims(n, k - 1);
      var log := run.s.log;
      run := Looks(run, n, k - 1, k - 1, log);
      var s' := Claimed(n, k, run.s.log);
      assert s'.threads == run.s.threads[k - 1 := Thread(PopLoad, Some(k - 1), [])];
      assert s'.slots == run.s.slots[k - 1 := Slot(Some(k - 1), NULL)];
      run := Extend(run, s', k - 1);
    }
  }

  lemma StartIdle(n: nat) returns (run: Run<State>)
    ensures IsRun(run) && run.s == Claimed(n, 0, [])
  {
    run := Start(Claimed(n, 0, []));
  }

  lemma TooFewSlots(n: nat) returns (run: Run<State>)
    requires n > MAX_HAZARD_POINTERS
    ensures IsRun(run) && |run.s.threads| == n && !NoThrow(run.s.log)
  {
    hide IsRun;
    var k := MAX_HAZARD_POINTERS;
    run := Claims(n, k);
    run := Looks(run, n, k, k, run.s.log);
    var s := run.s;
    var s' := s.(threads := Go(s, k, Idle), log := s.log + [ThrowNoSlot(k)]);
    run := Extend(run, s', k);
    assert run.s.log[|run.s.log| - 1].ThrowNoSlot?;
  }

  /** The slots suffice for `n` threads on all runs if and only if there are as many slots as threads. */
  lemma {:induction false} SlotsSuffice(n: nat)
    ensures (forall run :: IsRun(run) && |run.s.threads| == n ==> NoThrow(run.s.log)) <==> n <= MAX_HAZARD_POINTERS
  {
    hide IsRun, NoThrow;
    if n <= MAX_HAZARD_POINTERS {
      forall run | IsRun(run) && |run.s.threads| == n ensures NoThrow(run.s.log) {
        EnoughSlots(run);
      }
    } else {
      var run := TooFewSlots(n);
    }
  }
}

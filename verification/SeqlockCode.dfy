/** The methods of the three seqlocks and of the spin lock, run by one thread `t` while other threads
    interfere.  Every access of the counter, the lock and a payload word is a step of the transition
    system. */
module SeqlockCode {
  import opened Modular
  import opened Options
  import opened Runs
  import opened SeqlockModel
  import opened SeqlockTheorems

  /** `later` continues `run` with steps of threads other than `t`. */
  ghost predicate Others(run: Run<State>, later: Run<State>, t: nat) {
    later == run || (later.Then? && Others(run, later.before, t) && StepOfOther(later.before.s, later.s, t))
  }

  ghost predicate StepOfOther(s: State, s': State, t: nat) {
    exists u :: u != t && Next(s, s', u)
  }

  /** How often the counter or the lock changes in `later` after its prefix `run`. */
  ghost function Changes(run: Run<State>, later: Run<State>): nat {
    if later == run || later.Start? then 0
    else
      Changes(run, later.before)
      + if later.s.counter != later.before.s.counter || later.s.locked != later.before.s.locked then 1 else 0
  }

  ghost predicate Mine(s: State, s': State, t: nat) {
    && t < |s.threads| == |s'.threads| && s'.threads[t] == s.threads[t]
    && s'.kind == s.kind && s'.modulus == s.modulus && s'.single == s.single && |s'.words| == |s.words|
    && s.incs <= s'.incs && s.vals <= s'.vals
  }

  lemma MineNext(s: State, s': State, t: nat, u: nat)
    requires Next(s, s', u) && u != t && t < |s.threads|
    ensures Mine(s, s', t)
  {
    hide Wrap;
    HistoryNext(s, s', u);
    SameKind(s, s', u);
    if EntryNext(s, s', u) {
    } else if LoadNext(s, s', u) {
    } else {
    }
  }

  /** The stores and loads that a thread has completed. */
  datatype Act = Stored(v: seq<Word>) | Loaded(value: seq<Word>, since: nat)

  function ActOf(s: State, s': State, t: nat): seq<Act> {
    if t < |s.threads| && t < |s'.threads| then
      match (s.threads[t], s'.threads[t])
      case (Writing(v, _, _), Unlocking) => [Stored(v)]
      case (Writing(v, _, _), Idle) => [Stored(v)]
      case (Copying(_, _, _), Returned(value, since)) => [Loaded(value, since)]
      case _ => []
    else
      []
  }

  function Acts(run: Run<State>, t: nat): seq<Act> {
    match run
    case Start(_) => []
    case Then(before, s) => Acts(before, t) + ActOf(before.s, s, t)
  }

  lemma {:induction false} OthersKeepMine(run: Run<State>, later: Run<State>, t: nat)
    requires IsRun(run) && Others(run, later, t) && t < |run.s.threads|
    ensures IsRun(later) && Mine(run.s, later.s, t) && Acts(later, t) == Acts(run, t)
    ensures Changes(run, later) == 0 ==> later.s.counter == run.s.counter && later.s.locked == run.s.locked
    decreases later
  {
    hide Next;
    if later != run {
      OthersKeepMine(run, later.before, t);
      var u :| u != t && Next(later.before.s, later.s, u);
      MineNext(later.before.s, later.s, t, u);
    }
  }

  class Seqlock {
    const kind: Variant
    const modulus: nat
    const words: array<Word>               // mSharedValue, value_
    var counter: nat                       // mFlags, mCounter, seq_
    var locked: bool                       // the flag of mLock
    ghost var run: Run<State>
    ghost var budget: nat                  // changes of counter and lock by others still to come

    /** Thread `t` is at `pc`. */
    ghost predicate Ready(t: nat, pc: PC)
      reads this, words
    {
      && IsRun(run) && modulus > 0 && run.s.kind == kind && run.s.modulus == modulus
      && run.s.words == words[..] && run.s.counter == counter && run.s.locked == locked
      && t < |run.s.threads| && run.s.threads[t] == pc
    }

    /** The stores and loads that thread `t` has completed. */
    ghost function Did(t: nat): seq<Act>
      reads this`run
    {
      Acts(run, t)
    }

    constructor (kind: Variant, modulus: nat, words: array<Word>, ghost threads: nat, ghost single: bool, ghost budget: nat)
      requires modulus > 0 && modulus % 2 == 0
      ensures this.kind == kind && this.modulus == modulus && this.words == words && run.s.single == single
      ensures this.budget == budget
      ensures forall t :: 0 <= t < threads ==> Ready(t, Idle)
    {
      this.kind, this.modulus, this.words := kind, modulus, words;
      counter, locked := 0, false;
      run := Start(State(kind, modulus, single, 0, false, words[..], seq(threads, _ => Idle), None, 0, [words[..]]));
      this.budget := budget;
    }

    ghost method Commit(t: nat, s': State)
      requires IsRun(run) && Next(run.s, s', t)
      modifies this`run
      ensures IsRun(run) && run.s == s' && Grew(old(run), run)
      ensures Did(t) == old(Did(t)) + ActOf(old(run.s), s', t)
    {
      assert Steps(run.s, s');
      run := Then(run, s');
    }

    /** Other threads run for any finite number of steps. */
    method Interfere(ghost t: nat, ghost pc: PC)
      requires Ready(t, pc)
      modifies this, words
      ensures Ready(t, pc) && Others(old(run), run, t) && Mine(old(run.s), run.s, t) && Grew(old(run), run)
      ensures budget <= old(budget) && budget + Changes(old(run), run) <= old(budget)
      ensures budget == old(budget) ==> counter == old(counter) && locked == old(locked)
      ensures Did(t) == old(Did(t))
    {
      OthersKeepMine(run, run, t);
    }

    /** What a step of `t` itself leaves as it was. */
    ghost predicate Since(s: State)
      reads this
    {
      run.s.single == s.single && s.incs <= run.s.incs && s.vals <= run.s.vals
    }

    /* ----- SpinLock ----- */

    method TestAndSet(ghost t: nat, ghost v: seq<Word>) returns (was: bool)
      requires Ready(t, Locking(v))
      modifies this`run, this`locked
      ensures Ready(t, if was then Blocked(v) else Opening(v)) && Grew(old(run), run) && Since(old(run.s))
      ensures was == old(locked) && locked
      ensures Did(t) == old(Did(t))
    {
      hide IsRun, Wrap, Did;
      was := locked;
      locked := true;
      Commit(t, if was then At(run.s, t, Blocked(v)) else At(run.s, t, Opening(v)).(locked := true, owner := Some(t)));
    }

    ghost method Notice(t: nat, v: seq<Word>)
      requires Ready(t, Blocked(v)) && !locked
      modifies this`run
      ensures Ready(t, Locking(v)) && Grew(old(run), run) && Since(old(run.s))
      ensures Did(t) == old(Did(t))
    {
      hide IsRun, Wrap, Did;
      Commit(t, At(run.s, t, Locking(v)));
    }

    /** `lock`: the thread waits while others run; if the flag is still set when they pause, it returns. */
    method Lock(ghost t: nat, ghost v: seq<Word>) returns (blocked: bool)
      requires Ready(t, Locking(v))
      modifies this, words
      ensures Ready(t, if blocked then Blocked(v) else Opening(v)) && Grew(old(run), run) && Since(old(run.s))
      ensures blocked ==> locked
      ensures Did(t) == old(Did(t))
    {
      hide IsRun, Others, Changes, Continues, Did;
      var was := true;
      while was
        invariant Did(t) == old(Did(t))
        invariant Ready(t, if was then Locking(v) else Opening(v)) && Grew(old(run), run) && Since(old(run.s))
        decreases budget, if was && locked then 1 else 0, was
      {
        Interfere(t, Locking(v));
        was := TestAndSet(t, v);
        if was {
          Interfere(t, Blocked(v));
          if locked { return true; }
          Notice(t, v);
        }
      }
      blocked := false;
    }

    method Unlock(ghost t: nat)
      requires Ready(t, Unlocking)
      modifies this`run, this`locked
      ensures Ready(t, Idle) && Grew(old(run), run) && Since(old(run.s)) && !locked
      ensures Did(t) == old(Did(t))
    {
      hide IsRun, Wrap, Did;
      locked := false;
      Commit(t, At(run.s, t, Idle).(locked := false, owner := None));
    }

    /* ----- store ----- */

    /** A call of `store`.  Without the spin lock it is assumed, if `single`, that no store is going on. */
    ghost method EnterStore(t: nat, v: seq<Word>)
      requires Ready(t, Idle) && |v| == words.Length
      requires kind != Spin && run.s.single ==> run.s.owner == None
      modifies this`run
      ensures Ready(t, if kind == Spin then Locking(v) else Opening(v)) && Grew(old(run), run) && Since(old(run.s))
      ensures Did(t) == old(Did(t))
    {
      hide IsRun, Wrap, Did;
      var s := run.s;
      var s' := if kind == Spin then At(s, t, Locking(v))
                else if s.single then At(s, t, Opening(v)).(owner := Some(t)) else At(s, t, Opening(v));
      assert StartStore(s, s', t, v);
      Commit(t, s');
    }

    /** `mFlags.fetch_add(1)`, `mCounter++`. */
    method Increment(ghost t: nat, ghost v: seq<Word>)
      requires Ready(t, Opening(v)) && kind != Rigtorp
      modifies this`run, this`counter
      ensures Ready(t, Writing(v, 0, 0)) && Grew(old(run), run) && Since(old(run.s))
      ensures Did(t) == old(Did(t))
    {
      hide IsRun, Wrap, Did;
      counter := Wrap(counter + 1, modulus);
      Commit(t, At(run.s, t, Writing(v, 0, 0)).(counter := counter, incs := run.s.incs + 1));
    }

    /** Rigtorp: load the counter and store it plus one. */
    method StoreOdd(ghost t: nat, ghost v: seq<Word>) returns (seq0: nat)
      requires Ready(t, Opening(v)) && kind == Rigtorp
      modifies this, words
      ensures Ready(t, Writing(v, seq0, 0)) && Grew(old(run), run) && Since(old(run.s))
      ensures Did(t) == old(Did(t))
    {
      hide IsRun, Wrap, Others, Changes, Did;
      seq0 := counter;
      Commit(t, At(run.s, t, OpeningAt(v, seq0)));
      Interfere(t, OpeningAt(v, seq0));
      counter := Wrap(seq0 + 1, modulus);
      Commit(t, At(run.s, t, Writing(v, seq0, 0)).(counter := counter, incs := run.s.incs + 1));
    }

    method StoreWord(ghost t: nat, v: seq<Word>, ghost seq0: nat, i: nat)
      requires Ready(t, Writing(v, seq0, i)) && i < |v| == words.Length
      modifies this`run, words
      ensures Ready(t, Writing(v, seq0, i + 1)) && Grew(old(run), run) && Since(old(run.s))
      ensures Did(t) == old(Did(t))
    {
      hide IsRun, Wrap, Did;
      ghost var s := run.s;
      words[i] := v[i];
      Commit(t, At(s, t, Writing(v, seq0, i + 1)).(words := s.words[i := v[i]]));
    }

    /** `mSharedValue = aValue`, word by word. */
    method CopyIn(ghost t: nat, v: seq<Word>, ghost seq0: nat)
      requires Ready(t, Writing(v, seq0, 0)) && |v| == words.Length
      modifies this, words
      ensures Ready(t, Writing(v, seq0, |v|)) && Grew(old(run), run) && Since(old(run.s))
      ensures Did(t) == old(Did(t))
    {
      hide IsRun, Others, Changes, Continues, Did;
      var i := 0;
      while i < |v|
        invariant Did(t) == old(Did(t))
        invariant i <= |v| && Ready(t, Writing(v, seq0, i)) && Grew(old(run), run) && Since(old(run.s))
      {
        Interfere(t, Writing(v, seq0, i));
        StoreWord(t, v, seq0, i);
        i := i + 1;
      }
    }

    /** The second change of the counter completes the store. */
    method CloseCounter(ghost t: nat, ghost v: seq<Word>, seq0: nat)
      requires Ready(t, Writing(v, seq0, |v|))
      modifies this`run, this`counter
      ensures Ready(t, if kind == Spin then Unlocking else Idle) && Grew(old(run), run) && Since(old(run.s))
      ensures run.s.vals == old(run.s.vals) + [v]
      ensures Did(t) == old(Did(t)) + [Stored(v)]
    {
      hide IsRun, Wrap, Did;
      counter := Wrap(if kind == Rigtorp then seq0 + 2 else counter + 1, modulus);
      Commit(t, At(run.s, t, if kind == Spin then Unlocking else Idle).(
                  counter := counter, incs := run.s.incs + 1, vals := run.s.vals + [v],
                  owner := if kind != Spin && run.s.single then None else run.s.owner));
    }

    /** From the first change of the counter to the second. */
    method Publish(v: seq<Word>, ghost t: nat)
      requires Ready(t, Opening(v)) && |v| == words.Length
      modifies this, words
      ensures Ready(t, if kind == Spin then Unlocking else Idle) && Grew(old(run), run) && Since(old(run.s))
      ensures run.s.vals != [] && |old(run.s.vals)| < |run.s.vals| && Last(run.s) == v
      ensures Did(t) == old(Did(t)) + [Stored(v)]
    {
      hide IsRun, Others, Changes, Continues, Did;
      var seq0 := 0;
      Interfere(t, Opening(v));
      if kind == Rigtorp {
        seq0 := StoreOdd(t, v);
      } else {
        Increment(t, v);
      }
      CopyIn(t, v, seq0);
      Interfere(t, Writing(v, seq0, |v|));
      CloseCounter(t, v, seq0);
    }

    /** `store`: afterwards the value is among the complete ones, unless the thread waits for the lock. */
    method Store(v: seq<Word>, ghost t: nat) returns (blocked: bool)
      requires Ready(t, Idle) && |v| == words.Length
      requires kind != Spin && run.s.single ==> run.s.owner == None
      modifies this, words
      ensures Ready(t, if blocked then Blocked(v) else Idle) && Grew(old(run), run)
      ensures !blocked ==> exists k :: |old(run.s.vals)| <= k < |run.s.vals| && run.s.vals[k] == v
      ensures Did(t) == old(Did(t)) + if blocked then [] else [Stored(v)]
      ensures blocked ==> locked
    {
      hide IsRun, Others, Changes, Continues, Did;
      blocked := false;
      EnterStore(t, v);
      if kind == Spin {
        blocked := Lock(t, v);
        if blocked { return; }
      }
      Publish(v, t);
      ghost var k := |run.s.vals| - 1;
      assert run.s.vals[k] == v;
      if kind == Spin {
        Interfere(t, Unlocking);
        Unlock(t);
        assert run.s.vals[k] == v;
      }
    }

    /* ----- load ----- */

    ghost method EnterLoad(t: nat)
      requires Ready(t, Idle)
      modifies this`run
      ensures Ready(t, Sampling) && Grew(old(run), run) && Since(old(run.s))
      ensures Did(t) == old(Did(t))
    {
      hide IsRun, Wrap, Did;
      Commit(t, At(run.s, t, Sampling));
    }

    /** One load of the counter; rigtorp accepts an odd one at this point. */
    method SampleCounter(ghost t: nat) returns (accepted: bool, flag: nat)
      requires Ready(t, Sampling)
      modifies this`run
      ensures Ready(t, if accepted then Copying(flag, [], run.s.incs) else Sampling) && Grew(old(run), run)
      ensures Since(old(run.s)) && run.s.incs == old(run.s.incs)
      ensures accepted <==> counter % 2 == 0 || kind == Rigtorp
      ensures flag == counter
      ensures Did(t) == old(Did(t))
    {
      hide IsRun, Wrap, Did;
      flag := counter;
      accepted := flag % 2 == 0 || kind == Rigtorp;
      Commit(t, if accepted then At(run.s, t, Copying(flag, [], run.s.incs)) else run.s);
    }

    /** The loop that waits for an even counter; it gives up when the counter is odd while others pause. */
    method ReadEnter(ghost t: nat) returns (stalled: bool, flag: nat, ghost since: nat)
      requires Ready(t, Sampling)
      modifies this, words
      ensures Ready(t, if stalled then Sampling else Copying(flag, [], since)) && Grew(old(run), run) && Since(old(run.s))
      ensures stalled ==> counter % 2 == 1 && kind != Rigtorp
      ensures !stalled ==> old(run.s.incs) <= since && flag == counter && (flag % 2 == 0 || kind == Rigtorp)
      ensures budget <= old(budget)
      ensures Did(t) == old(Did(t))
    {
      hide IsRun, Others, Changes, Continues, Did;
      var accepted := false;
      stalled, flag, since := false, 0, run.s.incs;
      while !accepted
        invariant Did(t) == old(Did(t))
        invariant Ready(t, if accepted then Copying(flag, [], since) else Sampling)
        invariant Grew(old(run), run) && Since(old(run.s)) && old(run.s.incs) <= since && budget <= old(budget)
        invariant accepted ==> flag == counter && (flag % 2 == 0 || kind == Rigtorp)
        decreases budget, !accepted
      {
        Interfere(t, Sampling);
        accepted, flag := SampleCounter(t);
        since := run.s.incs;
        if !accepted {
          Interfere(t, Sampling);
          if counter % 2 == 1 { return true, flag, since; }
        }
      }
    }

    method LoadWord(ghost t: nat, ghost flag: nat, got: seq<Word>, ghost since: nat) returns (w: Word)
      requires Ready(t, Copying(flag, got, since)) && |got| < words.Length
      modifies this`run
      ensures Ready(t, Copying(flag, got + [w], since)) && Grew(old(run), run) && Since(old(run.s))
      ensures Did(t) == old(Did(t))
    {
      hide IsRun, Wrap, Did;
      w := words[|got|];
      Commit(t, At(run.s, t, Copying(flag, got + [w], since)));
    }

    /** `copy = mSharedValue`, word by word. */
    method CopyOut(ghost t: nat, ghost flag: nat, ghost since: nat) returns (copy: seq<Word>)
      requires Ready(t, Copying(flag, [], since))
      modifies this, words
      ensures Ready(t, Copying(flag, copy, since)) && |copy| == words.Length && Grew(old(run), run) && Since(old(run.s))
      ensures budget <= old(budget) && (budget == old(budget) ==> counter == old(counter))
      ensures Did(t) == old(Did(t))
    {
      hide IsRun, Others, Changes, Continues, Did;
      copy := [];
      while |copy| < words.Length
        invariant Did(t) == old(Did(t))
        invariant |copy| <= words.Length && Ready(t, Copying(flag, copy, since)) && Grew(old(run), run) && Since(old(run.s))
        invariant budget <= old(budget) && (budget == old(budget) ==> counter == old(counter))
      {
        Interfere(t, Copying(flag, copy, since));
        var w := LoadWord(t, flag, copy, since);
        copy := copy + [w];
      }
    }

    /** The second load of the counter decides. */
    method ReadLeave(ghost t: nat, flag: nat, ghost copy: seq<Word>, ghost since: nat) returns (ok: bool, now: nat)
      requires Ready(t, Copying(flag, copy, since)) && |copy| == words.Length
      modifies this`run
      ensures Ready(t, if ok then Returned(copy, since) else Sampling) && Grew(old(run), run) && Since(old(run.s))
      ensures now == counter && (ok <==> now == flag && flag % 2 == 0)
      ensures ok ==> Atomic(copy, since)
      ensures Did(t) == old(Did(t)) + if ok then [Loaded(copy, since)] else []
    {
      hide IsRun, Wrap, Did;
      now := counter;
      ok := now == flag && flag % 2 == 0;
      ghost var s' := At(run.s, t, if ok then Returned(copy, since) else Sampling);
      if ok && Guarded(run.s) && run.s.incs - since < modulus {
        ReturnsCompleteValue(run, s', t);
      }
      Commit(t, s');
    }

    /** If stores do not overlap and the counter has not wrapped since then, this is the last complete value. */
    ghost predicate Atomic(copy: seq<Word>, since: nat)
      reads this
    {
      Guarded(run.s) && run.s.incs - since < modulus ==> run.s.vals != [] && copy == Last(run.s)
    }

    /** `load`: the sample that was accepted lies within the call.  The load stalls if the counter is odd when
        others pause. */
    method Load(ghost t: nat) returns (stalled: bool, copy: seq<Word>)
      requires Ready(t, Idle)
      modifies this, words
      ensures stalled ==> Ready(t, Sampling) && counter % 2 == 1
      ensures !stalled ==>
                exists since :: old(run.s.incs) <= since && Ready(t, Returned(copy, since)) && Atomic(copy, since)
                                && Did(t) == old(Did(t)) + [Loaded(copy, since)]
      ensures Grew(old(run), run)
      ensures stalled ==> Did(t) == old(Did(t))
    {
      hide IsRun, Others, Changes, Continues, Guarded, Atomic, Did;
      EnterLoad(t);
      copy := [];
      while true
        invariant Did(t) == old(Did(t))
        invariant Ready(t, Sampling) && Grew(old(run), run) && Since(old(run.s))
        decreases budget
      {
        ghost var since;
        var flag;
        stalled, flag, since := ReadEnter(t);
        if stalled { return; }
        copy := CopyOut(t, flag, since);
        Interfere(t, Copying(flag, copy, since));
        var ok, now := ReadLeave(t, flag, copy, since);
        if ok { return; }
        if now == flag { return true, []; }
      }
    }
  }
}

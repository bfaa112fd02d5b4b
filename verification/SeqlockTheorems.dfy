/** What a load returns, and runs that show where the assumptions are needed. */
module SeqlockTheorems {
  import opened Modular
  import opened Options
  import opened Runs
  import opened SeqlockModel

  /** Stores do not overlap: by the spin lock, or by the assumption of one writer. */
  lemma {:induction false} OneStoreAtATime(run: Run<State>, t: nat, u: nat)
    requires IsRun(run) && Guarded(run.s) && t < |run.s.threads| && u < |run.s.threads|
    requires InStore(run.s.threads[t]) && InStore(run.s.threads[u])
    ensures t == u
  {
    hide IsRun, Guarded;
    RunInv(run);
  }

  /** A load that returns has the last complete value of its accepted sample, never a mix of words, if the
      counter changed less than `modulus` times in between; it then changed not at all. */
  lemma {:induction false} ReturnsCompleteValue(run: Run<State>, s': State, t: nat)
    requires IsRun(run) && Guarded(run.s) && Check(run.s, s', t) && s'.threads[t].Returned?
    requires run.s.incs - s'.threads[t].since < run.s.modulus
    ensures s'.threads[t].since == run.s.incs && run.s.incs % 2 == 0
    ensures |run.s.vals| == run.s.incs / 2 + 1 && s'.threads[t].value == run.s.vals[run.s.incs / 2]
  {
    hide IsRun, Guarded, Wrap;
    RunInv(run);
    assert LoadOk(run.s, t);
    WrapSame(run.s.threads[t].since, run.s.incs, run.s.modulus);
    WrapParity(run.s.incs, run.s.modulus);
  }

  lemma HistoryNext(s: State, s': State, t: nat)
    requires Next(s, s', t)
    ensures s.vals <= s'.vals && s.incs <= s'.incs
  {
    hide Wrap;
    if EntryNext(s, s', t) {
    } else if LoadNext(s, s', t) {
    } else {
    }
  }

  lemma {:induction false} HistoryGrows(run: Run<State>, later: Run<State>)
    requires IsRun(later) && Continues(run, later)
    ensures IsRun(run) && run.s.vals <= later.s.vals && run.s.incs <= later.s.incs
    ensures Guarded(later.s) ==> Guarded(run.s)
    decreases later
  {
    hide Next;
    if later != run {
      HistoryGrows(run, later.before);
      var t :| Next(later.before.s, later.s, t);
      HistoryNext(later.before.s, later.s, t);
      SameKind(later.before.s, later.s, t);
    }
  }

  /** Load against any number of stores: `sampled` ends with the accepted sample and `later` with the state
      in which the check succeeds.  The value returned is the one that was complete at the sample. */
  lemma {:induction false} LoadIsAtomic(sampled: Run<State>, later: Run<State>, s': State, t: nat)
    requires IsRun(later) && Continues(sampled, later) && Guarded(later.s)
    requires t < |sampled.s.threads| && sampled.s.threads[t].Copying? && sampled.s.threads[t].since == sampled.s.incs
    requires Check(later.s, s', t) && s'.threads[t].Returned? && s'.threads[t].since == sampled.s.incs
    requires later.s.incs - sampled.s.incs < later.s.modulus
    ensures sampled.s.incs % 2 == 0 && sampled.s.vals != [] && s'.threads[t].value == Last(sampled.s)
    ensures sampled.s.words == Last(sampled.s) && later.s.words == Last(sampled.s)
  {
    hide IsRun, Wrap, Guarded;
    ReturnsCompleteValue(later, s', t);
    HistoryGrows(sampled, later);
    RunInv(sampled);
    RunInv(later);
    hide ThreadsOk;
  }

  /* ----- where the assumptions are needed ----- */

  lemma Begin(s: State) returns (run: Run<State>)
    requires Init(s)
    ensures IsRun(run) && run.s == s
  {
    run := Start(s);
  }

  lemma {:induction false} Extend(run: Run<State>, s: State, t: nat) returns (next: Run<State>)
    requires IsRun(run) && Next(run.s, s, t)
    ensures IsRun(next) && next.s == s
  {
    assert Steps(run.s, s);
    next := Then(run, s);
  }

  lemma {:induction false} ExtendStore(run: Run<State>, s: State, t: nat, v: seq<Word>) returns (next: Run<State>)
    requires IsRun(run) && StartStore(run.s, s, t, v)
    ensures IsRun(next) && next.s == s
  {
    next := Extend(run, s, t);
  }

  /** Two writers and a reader, without the assumption of one writer; `steps` is what the counter shows. */
  function Two(kind: Variant, m: nat, words: seq<Word>, a: PC, b: PC, c: PC, steps: nat, incs: nat, vals: seq<seq<Word>>): State
    requires m > 0
  {
    State(kind, m, false, Wrap(steps, m), false, words, [a, b, c], None, incs, vals)
  }

  /** With two overlapping stores the naive counter is even while both write: a load returns a mix of two
      values although the counter never changes during the load. */
  lemma NaiveStoresOverlap(m: nat, w0: Word, w1: Word) returns (run: Run<State>, s': State)
    requires m > 0 && m % 2 == 0 && w0 != w1
    ensures IsRun(run) && run.s.kind == Naive && !run.s.single && run.s.modulus == m && run.s.vals == [[w0, w0]]
    ensures Check(run.s, s', 2) && s'.threads[2] == Returned([w1, w0], run.s.incs)
  {
    hide IsRun, Wrap;
    var v0, v1, v := [w0, w0], [w1, w1], [w1, w0];
    var vals := [v0];
    assert v0[0 := w1] == v;
    WrapUnique(0, m, 0, 0);
    WrapAdd(0, 1, m);
    WrapAdd(1, 1, m);
    run := Begin(Two(Naive, m, v0, Idle, Idle, Idle, 0, 0, vals));
    run := ExtendStore(run, Two(Naive, m, v0, Opening(v1), Idle, Idle, 0, 0, vals), 0, v1);
    run := Extend(run, Two(Naive, m, v0, Writing(v1, 0, 0), Idle, Idle, 1, 1, vals), 0);
    run := Extend(run, Two(Naive, m, v, Writing(v1, 0, 1), Idle, Idle, 1, 1, vals), 0);
    run := ExtendStore(run, Two(Naive, m, v, Writing(v1, 0, 1), Opening(v1), Idle, 1, 1, vals), 1, v1);
    run := Extend(run, Two(Naive, m, v, Writing(v1, 0, 1), Writing(v1, 0, 0), Idle, 2, 2, vals), 1);
    run, s' := LoadOnce(run, Naive, m, v, Writing(v1, 0, 1), Writing(v1, 0, 0), 2, 2, vals);
  }

  /** The third thread loads, undisturbed, while the counter is even. */
  lemma {:induction false} LoadOnce(before: Run<State>, kind: Variant, m: nat, words: seq<Word>, a: PC, b: PC, steps: nat, incs: nat, vals: seq<seq<Word>>)
    returns (run: Run<State>, s': State)
    requires m > 0 && m % 2 == 0 && steps % 2 == 0 && |words| == 2
    requires IsRun(before) && before.s == Two(kind, m, words, a, b, Idle, steps, incs, vals)
    ensures IsRun(run) && run.s == Two(kind, m, words, a, b, Copying(Wrap(steps, m), words, incs), steps, incs, vals)
    ensures Check(run.s, s', 2) && s'.threads[2] == Returned(words, incs)
  {
    hide IsRun, Wrap;
    WrapParity(steps, m);
    var none: seq<Word> := [];
    assert none + [words[0]] == [words[0]] && [words[0]] + [words[1]] == words;
    var flag := Wrap(steps, m);
    run := Extend(before, Two(kind, m, words, a, b, Sampling, steps, incs, vals), 2);
    run := Extend(run, Two(kind, m, words, a, b, Copying(flag, none, incs), steps, incs, vals), 2);
    run := Extend(run, Two(kind, m, words, a, b, Copying(flag, [words[0]], incs), steps, incs, vals), 2);
    run := Extend(run, Two(kind, m, words, a, b, Copying(flag, words, incs), steps, incs, vals), 2);
    s' := Two(kind, m, words, a, b, Returned(words, incs), steps, incs, vals);
  }

  /** Two overlapping rigtorp stores start from the same counter. */
  lemma RigtorpBothOpen(m: nat, w0: Word, w1: Word) returns (run: Run<State>)
    requires m > 0 && m % 2 == 0
    ensures IsRun(run)
    ensures run.s == Two(Rigtorp, m, [w0, w0], Writing([w1, w1], 0, 0), Writing([w0, w0], 0, 0), Idle, 1, 2, [[w0, w0]])
  {
    hide IsRun, Wrap;
    var v0, v1 := [w0, w0], [w1, w1];
    var vals := [v0];
    WrapUnique(0, m, 0, 0);
    run := Begin(Two(Rigtorp, m, v0, Idle, Idle, Idle, 0, 0, vals));
    run := ExtendStore(run, Two(Rigtorp, m, v0, Opening(v1), Idle, Idle, 0, 0, vals), 0, v1);
    run := Extend(run, Two(Rigtorp, m, v0, OpeningAt(v1, 0), Idle, Idle, 0, 0, vals), 0);
    run := ExtendStore(run, Two(Rigtorp, m, v0, OpeningAt(v1, 0), Opening(v0), Idle, 0, 0, vals), 1, v0);
    run := Extend(run, Two(Rigtorp, m, v0, OpeningAt(v1, 0), OpeningAt(v0, 0), Idle, 0, 0, vals), 1);
    run := Extend(run, Two(Rigtorp, m, v0, Writing(v1, 0, 0), OpeningAt(v0, 0), Idle, 1, 1, vals), 0);
    run := Extend(run, Two(Rigtorp, m, v0, Writing(v1, 0, 0), Writing(v0, 0, 0), Idle, 1, 2, vals), 1);
  }

  /** The first to finish makes the counter even while the second is writing; a load then returns a mix. */
  lemma RigtorpStoresOverlap(m: nat, w0: Word, w1: Word) returns (run: Run<State>, s': State)
    requires m > 0 && m % 2 == 0 && w0 != w1
    ensures IsRun(run) && run.s.kind == Rigtorp && !run.s.single && run.s.modulus == m
    ensures run.s.vals == [[w0, w0], [w1, w1]]
    ensures Check(run.s, s', 2) && s'.threads[2] == Returned([w0, w1], run.s.incs)
  {
    hide IsRun, Wrap;
    var v0, v1, v := [w0, w0], [w1, w1], [w0, w1];
    var vals := [v0];
    assert v0[0 := w1][1 := w1] == v1 && v1[0 := w0] == v;
    run := RigtorpBothOpen(m, w0, w1);
    run := Extend(run, Two(Rigtorp, m, v0[0 := w1], Writing(v1, 0, 1), Writing(v0, 0, 0), Idle, 1, 2, vals), 0);
    run := Extend(run, Two(Rigtorp, m, v1, Writing(v1, 0, 2), Writing(v0, 0, 0), Idle, 1, 2, vals), 0);
    assert vals + [v1] == [v0, v1];
    run := Extend(run, Two(Rigtorp, m, v1, Idle, Writing(v0, 0, 0), Idle, 2, 3, [v0, v1]), 0);
    run := Extend(run, Two(Rigtorp, m, v, Idle, Writing(v0, 0, 1), Idle, 2, 3, [v0, v1]), 1);
    run, s' := LoadOnce(run, Rigtorp, m, v, Idle, Writing(v0, 0, 1), 2, 3, [v0, v1]);
  }

  /** On a run of this version a load succeeds in which the counter has changed less than `m` times. */
  ghost predicate LoadEnds(kind: Variant, single: bool, m: nat, run: Run<State>, s': State, t: nat) {
    && IsRun(run) && run.s.kind == kind && run.s.single == single && run.s.modulus == m
    && Check(run.s, s', t) && s'.threads[t].Returned? && run.s.incs - s'.threads[t].since < m
  }

  /** On every run such loads return a value that was stored whole. */
  ghost predicate LoadsWhole(kind: Variant, single: bool, m: nat) {
    forall run, s', t: nat :: LoadEnds(kind, single, m, run, s', t) ==> s'.threads[t].value in run.s.vals
  }

  /** The spin lock, or the assumption that stores do not overlap, is what it takes, no more and no less. */
  lemma {:induction false} LoadsWholeExactly(kind: Variant, single: bool, m: nat, w0: Word, w1: Word)
    requires m > 0 && m % 2 == 0 && w0 != w1
    ensures LoadsWhole(kind, single, m) <==> kind == Spin || single
  {
    hide IsRun, Wrap;
    if kind == Spin || single {
      forall run, s', t: nat | LoadEnds(kind, single, m, run, s', t) ensures s'.threads[t].value in run.s.vals {
        ReturnsCompleteValue(run, s', t);
      }
    } else {
      assert [w0, w1] != [w0, w0] && [w0, w1] != [w1, w1] && [w1, w0] != [w0, w0];
      var run, s';
      if kind == Naive {
        run, s' := NaiveStoresOverlap(m, w0, w1);
      } else {
        run, s' := RigtorpStoresOverlap(m, w0, w1);
      }
      assert LoadEnds(kind, single, m, run, s', 2) && s'.threads[2].value !in run.s.vals;
    }
  }

  /* ----- the counter may not wrap within a load ----- */

  /** One writer and a reader; the lock is held inside a store. */
  function Pair(kind: Variant, m: nat, words: seq<Word>, a: PC, b: PC, owner: Option<nat>, incs: nat, vals: seq<seq<Word>>): State
    requires m > 0
  {
    State(kind, m, true, Wrap(incs, m), kind == Spin && owner.Some?, words, [a, b], owner, incs, vals)
  }

  function Seq0(kind: Variant, incs: nat, m: nat): nat
    requires m > 0
  {
    if kind == Rigtorp then Wrap(incs, m) else 0
  }

  /** From the call to the first change of the counter, in each version its own way. */
  lemma {:induction false} OpenStore(before: Run<State>, kind: Variant, m: nat, was: seq<Word>, v: seq<Word>, b: PC, incs: nat, vals: seq<seq<Word>>)
    returns (run: Run<State>)
    requires m > 0 && |was| == |v|
    requires IsRun(before) && before.s == Pair(kind, m, was, Idle, b, None, incs, vals)
    ensures IsRun(run)
    ensures run.s == Pair(kind, m, was, Writing(v, Seq0(kind, incs, m), 0), b, Some(0), incs + 1, vals)
  {
    hide IsRun, Wrap;
    WrapAdd(incs, 1, m);
    if kind == Spin {
      run := ExtendStore(before, Pair(kind, m, was, Locking(v), b, None, incs, vals), 0, v);
      run := Extend(run, Pair(kind, m, was, Opening(v), b, Some(0), incs, vals), 0);
    } else {
      run := ExtendStore(before, Pair(kind, m, was, Opening(v), b, Some(0), incs, vals), 0, v);
      if kind == Rigtorp {
        run := Extend(run, Pair(kind, m, was, OpeningAt(v, Wrap(incs, m)), b, Some(0), incs, vals), 0);
      }
    }
    run := Extend(run, Pair(kind, m, was, Writing(v, Seq0(kind, incs, m), 0), b, Some(0), incs + 1, vals), 0);
  }

  lemma {:induction false} CloseStore(before: Run<State>, kind: Variant, m: nat, v: seq<Word>, b: PC, incs: nat, vals: seq<seq<Word>>)
    returns (run: Run<State>)
    requires m > 0
    requires IsRun(before)
    requires before.s == Pair(kind, m, v, Writing(v, Seq0(kind, incs, m), |v|), b, Some(0), incs + 1, vals)
    ensures IsRun(run) && run.s == Pair(kind, m, v, Idle, b, None, incs + 2, vals + [v])
  {
    hide IsRun, Wrap;
    WrapAdd(incs + 1, 1, m);
    WrapAdd(incs, 2, m);
    if kind == Spin {
      run := Extend(before, Pair(kind, m, v, Unlocking, b, Some(0), incs + 2, vals + [v]), 0);
      run := Extend(run, Pair(kind, m, v, Idle, b, None, incs + 2, vals + [v]), 0);
    } else {
      run := Extend(before, Pair(kind, m, v, Idle, b, None, incs + 2, vals + [v]), 0);
    }
  }

  lemma {:induction false} StoreOnce(before: Run<State>, kind: Variant, m: nat, was: seq<Word>, v: seq<Word>, b: PC, incs: nat, vals: seq<seq<Word>>)
    returns (run: Run<State>)
    requires m > 0 && |was| == |v| == 2
    requires IsRun(before) && before.s == Pair(kind, m, was, Idle, b, None, incs, vals)
    ensures IsRun(run) && run.s == Pair(kind, m, v, Idle, b, None, incs + 2, vals + [v])
  {
    hide IsRun, Wrap;
    var seq0 := Seq0(kind, incs, m);
    assert was[0 := v[0]][1 := v[1]] == v;
    run := OpenStore(before, kind, m, was, v, b, incs, vals);
    run := Extend(run, Pair(kind, m, was[0 := v[0]], Writing(v, seq0, 1), b, Some(0), incs + 1, vals), 0);
    run := Extend(run, Pair(kind, m, v, Writing(v, seq0, 2), b, Some(0), incs + 1, vals), 0);
    run := CloseStore(run, kind, m, v, b, incs, vals);
  }

  lemma {:induction false} Stores(before: Run<State>, kind: Variant, m: nat, was: seq<Word>, v: seq<Word>, b: PC, k: nat, vals: seq<seq<Word>>)
    returns (run: Run<State>, vals': seq<seq<Word>>)
    requires m > 0 && |was| == |v| == 2 && (forall u :: u in vals ==> u == was || u == v)
    requires IsRun(before) && before.s == Pair(kind, m, was, Idle, b, None, 0, vals)
    ensures IsRun(run) && run.s == Pair(kind, m, if k == 0 then was else v, Idle, b, None, 2 * k, vals')
    ensures forall u :: u in vals' ==> u == was || u == v
    decreases k
  {
    hide IsRun, Wrap;
    run, vals' := before, vals;
    if k > 0 {
      run, vals' := Stores(before, kind, m, was, v, b, k - 1, vals);
      run := StoreOnce(run, kind, m, if k == 1 then was else v, v, b, 2 * (k - 1), vals');
      vals' := vals' + [v];
    }
  }

  lemma FirstWord(kind: Variant, m: nat, w: Word) returns (run: Run<State>)
    requires m > 0 && m % 2 == 0
    ensures IsRun(run) && run.s == Pair(kind, m, [w, w], Idle, Copying(0, [w], 0), None, 0, [[w, w]])
  {
    hide IsRun, Wrap;
    var v, none: seq<Word> := [w, w], [];
    assert none + [w] == [w];
    WrapUnique(0, m, 0, 0);
    run := Begin(Pair(kind, m, v, Idle, Idle, None, 0, [v]));
    run := Extend(run, Pair(kind, m, v, Idle, Sampling, None, 0, [v]), 1);
    run := Extend(run, Pair(kind, m, v, Idle, Copying(0, none, 0), None, 0, [v]), 1);
    run := Extend(run, Pair(kind, m, v, Idle, Copying(0, [w], 0), None, 0, [v]), 1);
  }

  /** The bound on the increments is exact, in all three versions: for every even modulus, 2^32 and 2^64 among
      them, a load in which the counter changes `modulus` times can return a mix of words, even with a single
      writer. */
  lemma TornAfterWrap(kind: Variant, m: nat, w0: Word, w1: Word) returns (run: Run<State>, s': State)
    requires m > 0 && m % 2 == 0 && w0 != w1
    ensures IsRun(run) && run.s.kind == kind && run.s.modulus == m && Guarded(run.s)
    ensures Check(run.s, s', 1) && s'.threads[1].Returned? && run.s.incs - s'.threads[1].since == m
    ensures s'.threads[1].value !in s'.vals
  {
    hide IsRun, Wrap;
    var v0, v1 := [w0, w0], [w1, w1];
    assert [w0] + [w1] == [w0, w1];
    run := FirstWord(kind, m, w0);
    var vals;
    run, vals := Stores(run, kind, m, v0, v1, Copying(0, [w0], 0), m / 2, [v0]);
    run := Extend(run, Pair(kind, m, v1, Idle, Copying(0, [w0, w1], 0), None, m, vals), 1);
    WrapUnique(m, m, 1, 0);
    s' := Pair(kind, m, v1, Idle, Returned([w0, w1], 0), None, m, vals);
    assert [w0, w1] != v0 && [w0, w1] != v1;
  }
}

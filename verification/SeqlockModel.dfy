/** Three seqlocks over one payload that is copied word by word: writers serialised by a spin lock, and
    the naive and the rigtorp versions for one writer.  One transition for each access of the counter, of
    the lock and of a payload word. */
module SeqlockModel {
  import opened Modular
  import opened Options
  import opened Runs

  type Word(==, !new, 0)

  datatype Variant = Spin | Naive | Rigtorp

  datatype PC =
    | Idle
    // store
    | Locking(v: seq<Word>)                       // test_and_set
    | Blocked(v: seq<Word>)                       // waiting for the flag to change
    | Opening(v: seq<Word>)                       // about to make the counter odd
    | OpeningAt(v: seq<Word>, seq0: nat)          // rigtorp has loaded the counter
    | Writing(v: seq<Word>, seq0: nat, i: nat)    // i words written
    | Unlocking
    // load
    | Sampling
    | Copying(flag: nat, got: seq<Word>, since: nat)   // the increments counted at the sample are history
    | Returned(value: seq<Word>, since: nat)

  /** `modulus` is 2^32 or 2^64.  `single` states the assumption that stores do not overlap; `owner` is the
      thread inside a store.  `incs` counts the changes of the counter and `vals` holds the values of all
      completed stores, the initial one first; these three are history. */
  datatype State = State(kind: Variant, modulus: nat, single: bool, counter: nat, locked: bool, words: seq<Word>,
                         threads: seq<PC>, owner: Option<nat>, incs: nat, vals: seq<seq<Word>>)

  ghost predicate Init(s: State) {
    && s.modulus > 0 && s.modulus % 2 == 0
    && s.counter == 0 && !s.locked && s.owner == None && s.incs == 0 && s.vals == [s.words]
    && forall t :: 0 <= t < |s.threads| ==> s.threads[t] == Idle
  }

  function At(s: State, t: nat, pc: PC): State
    requires t < |s.threads|
  {
    s.(threads := s.threads[t := pc])
  }

  ghost predicate Is(s: State, t: nat) {
    t < |s.threads| && s.modulus > 0
  }

  /* ----- store ----- */

  ghost predicate StartStore(s: State, s': State, t: nat, v: seq<Word>) {
    && Is(s, t) && s.threads[t] == Idle && |v| == |s.words|
    && if s.kind == Spin then s' == At(s, t, Locking(v))
       else if s.single then s.owner == None && s' == At(s, t, Opening(v)).(owner := Some(t))
       else s' == At(s, t, Opening(v))
  }

  ghost predicate TestAndSet(s: State, s': State, t: nat) {
    && Is(s, t) && s.threads[t].Locking?
    && s' == if s.locked then At(s, t, Blocked(s.threads[t].v))
             else At(s, t, Opening(s.threads[t].v)).(locked := true, owner := Some(t))
  }

  ghost predicate Notice(s: State, s': State, t: nat) {
    Is(s, t) && s.threads[t].Blocked? && !s.locked && s' == At(s, t, Locking(s.threads[t].v))
  }

  ghost predicate LoadSequence(s: State, s': State, t: nat) {
    Is(s, t) && s.kind == Rigtorp && s.threads[t].Opening? && s' == At(s, t, OpeningAt(s.threads[t].v, s.counter))
  }

  /** The first change of the counter: an increment, or a store of the value loaded plus one. */
  ghost predicate Open(s: State, s': State, t: nat) {
    && Is(s, t)
    && ((s.kind != Rigtorp && s.threads[t].Opening?
         && s' == At(s, t, Writing(s.threads[t].v, 0, 0)).(counter := Wrap(s.counter + 1, s.modulus), incs := s.incs + 1))
        || (s.kind == Rigtorp && s.threads[t].OpeningAt?
            && s' == At(s, t, Writing(s.threads[t].v, s.threads[t].seq0, 0)).(
                       counter := Wrap(s.threads[t].seq0 + 1, s.modulus), incs := s.incs + 1)))
  }

  ghost predicate WriteWord(s: State, s': State, t: nat) {
    && Is(s, t) && s.threads[t].Writing?
    && var i := s.threads[t].i;
    && i < |s.threads[t].v| && i < |s.words|
    && s' == At(s, t, s.threads[t].(i := i + 1)).(words := s.words[i := s.threads[t].v[i]])
  }

  /** The second change of the counter. */
  ghost predicate Close(s: State, s': State, t: nat) {
    && Is(s, t) && s.threads[t].Writing? && s.threads[t].i == |s.threads[t].v|
    && var c := if s.kind == Rigtorp then s.threads[t].seq0 + 2 else s.counter + 1;
       s' == At(s, t, if s.kind == Spin then Unlocking else Idle).(
               counter := Wrap(c, s.modulus), incs := s.incs + 1, vals := s.vals + [s.threads[t].v],
               owner := if s.kind != Spin && s.single then None else s.owner)
  }

  ghost predicate Unlock(s: State, s': State, t: nat) {
    Is(s, t) && s.threads[t] == Unlocking && s' == At(s, t, Idle).(locked := false, owner := None)
  }

  /* ----- load ----- */

  ghost predicate StartLoad(s: State, s': State, t: nat) {
    Is(s, t) && s.threads[t] == Idle && s' == At(s, t, Sampling)
  }

  /** Rigtorp copies even if the counter is odd; the others load it again. */
  ghost predicate Sample(s: State, s': State, t: nat) {
    && Is(s, t) && s.threads[t] == Sampling
    && s' == if s.counter % 2 == 1 && s.kind != Rigtorp then s else At(s, t, Copying(s.counter, [], s.incs))
  }

  ghost predicate CopyWord(s: State, s': State, t: nat) {
    && Is(s, t) && s.threads[t].Copying? && |s.threads[t].got| < |s.words|
    && s' == At(s, t, s.threads[t].(got := s.threads[t].got + [s.words[|s.threads[t].got|]]))
  }

  ghost predicate Check(s: State, s': State, t: nat) {
    && Is(s, t) && s.threads[t].Copying? && |s.threads[t].got| == |s.words|
    && s' == At(s, t, if s.counter != s.threads[t].flag || s.threads[t].flag % 2 == 1 then Sampling
                      else Returned(s.threads[t].got, s.threads[t].since))
  }

  ghost predicate Return(s: State, s': State, t: nat) {
    Is(s, t) && s.threads[t].Returned? && s' == At(s, t, Idle)
  }

  /** Transitions that leave counter and payload alone. */
  ghost predicate EntryNext(s: State, s': State, t: nat) {
    || (exists v :: StartStore(s, s', t, v)) || TestAndSet(s, s', t) || Notice(s, s', t) || LoadSequence(s, s', t)
    || Unlock(s, s', t)
  }

  ghost predicate PayloadNext(s: State, s': State, t: nat) {
    Open(s, s', t) || WriteWord(s, s', t) || Close(s, s', t)
  }

  ghost predicate LoadNext(s: State, s': State, t: nat) {
    StartLoad(s, s', t) || Sample(s, s', t) || CopyWord(s, s', t) || Check(s, s', t) || Return(s, s', t)
  }

  ghost predicate Next(s: State, s': State, t: nat) {
    EntryNext(s, s', t) || PayloadNext(s, s', t) || LoadNext(s, s', t)
  }

  ghost predicate Steps(s: State, s': State) {
    exists t :: Next(s, s', t)
  }

  ghost predicate IsRun(run: Run<State>)
    decreases run, 0
  {
    match run
    case Start(s) => Init(s)
    case Then(before, s) => Extends(before, s)
  }

  /** One more transition at the end of a run. */
  ghost predicate Extends(before: Run<State>, s: State)
    decreases before, 1
  {
    IsRun(before) && Steps(before.s, s)
  }

  /* ----- the invariant, when stores do not overlap ----- */

  ghost predicate Guarded(s: State) {
    s.kind == Spin || s.single
  }

  predicate InStore(pc: PC) {
    pc.Opening? || pc.OpeningAt? || pc.Writing? || pc.Unlocking?
  }

  /** One thread at a time is inside a store; for the spin lock it is the one that holds it. */
  ghost predicate OwnerOk(s: State) {
    && (forall t :: 0 <= t < |s.threads| ==> (InStore(s.threads[t]) <==> s.owner == Some(t)))
    && (s.owner.Some? ==> s.owner.value < |s.threads|)
    && (s.kind == Spin ==> (s.locked <==> s.owner.Some?))
  }

  ghost predicate CountOk(s: State) {
    && s.modulus > 0 && s.modulus % 2 == 0
    && s.counter == Wrap(s.incs, s.modulus) && |s.vals| == s.incs / 2 + 1
    && forall k :: 0 <= k < |s.vals| ==> |s.vals[k]| == |s.words|
  }

  function Last(s: State): seq<Word>
    requires s.vals != []
  {
    s.vals[|s.vals| - 1]
  }

  /** Every word the writer has reached is new and the others are those of the last complete value. */
  ghost predicate PayloadOk(s: State)
    requires s.vals != [] && |Last(s)| == |s.words| && s.modulus > 0
  {
    if s.owner.None? || s.owner.value >= |s.threads| || !s.threads[s.owner.value].Writing? then
      s.incs % 2 == 0 && s.words == Last(s)
    else
      var pc := s.threads[s.owner.value];
      && s.incs % 2 == 1 && |pc.v| == |s.words| && pc.i <= |s.words|
      && s.words == pc.v[..pc.i] + Last(s)[pc.i..]
  }

  /** The value to be stored fits, and what rigtorp has loaded is still the counter before the store. */
  ghost predicate StoreOk(s: State, t: nat)
    requires t < |s.threads| && s.modulus > 0
  {
    var pc := s.threads[t];
    && (pc.Locking? || pc.Blocked? || pc.Opening? || pc.OpeningAt? ==> |pc.v| == |s.words|)
    && (pc.Locking? || pc.Blocked? || pc.Unlocking? ==> s.kind == Spin)
    && (pc.OpeningAt? ==> s.kind == Rigtorp && pc.seq0 == Wrap(s.incs, s.modulus))
    && (pc.Writing? && s.kind == Rigtorp ==> pc.seq0 == Wrap(s.incs - 1, s.modulus))
  }

  /** Until the counter moves, a reader that sampled it even has a prefix of the last complete value. */
  ghost predicate LoadOk(s: State, t: nat)
    requires t < |s.threads| && s.modulus > 0
  {
    var pc := s.threads[t];
    pc.Copying? ==>
      && pc.flag == Wrap(pc.since, s.modulus) && pc.since <= s.incs && pc.since / 2 < |s.vals|
      && (pc.since == s.incs && pc.since % 2 == 0 ==> pc.got <= s.vals[pc.since / 2])
  }

  ghost predicate ThreadsOk(s: State)
    requires s.modulus > 0
  {
    forall t :: 0 <= t < |s.threads| ==> StoreOk(s, t) && LoadOk(s, t)
  }

  ghost predicate Inv(s: State) {
    CountOk(s) && OwnerOk(s) && PayloadOk(s) && ThreadsOk(s)
  }

  lemma InitInv(s: State)
    requires Init(s)
    ensures Inv(s)
  {
    WrapUnique(0, s.modulus, 0, 0);
  }

  /** Only thread `t` moves. */
  ghost predicate OnlyThread(s: State, s': State, t: nat) {
    && t < |s.threads| == |s'.threads| && s'.kind == s.kind && s'.modulus == s.modulus && s'.single == s.single
    && |s'.words| == |s.words|
    && forall u :: 0 <= u < |s.threads| && u != t ==> s'.threads[u] == s.threads[u]
  }

  predicate SamePayload(s: State, s': State) {
    s'.counter == s.counter && s'.words == s.words && s'.incs == s.incs && s'.vals == s.vals
  }

  lemma ThreadsFrame(s: State, s': State, t: nat)
    requires CountOk(s) && ThreadsOk(s) && OnlyThread(s, s', t) && SamePayload(s, s')
    requires StoreOk(s', t) && LoadOk(s', t)
    ensures ThreadsOk(s')
  {
    forall u | 0 <= u < |s'.threads| ensures StoreOk(s', u) && LoadOk(s', u) {
      assert StoreOk(s, u) && LoadOk(s, u);
    }
  }

  lemma EntryInv(s: State, s': State, t: nat)
    requires Inv(s) && Guarded(s) && EntryNext(s, s', t)
    ensures Inv(s')
  {
    hide Wrap;
    assert StoreOk(s, t);
    EntryThread(s, s', t);
    ThreadsFrame(s, s', t);
    EntryOwner(s, s', t);
  }

  lemma EntryThread(s: State, s': State, t: nat)
    requires CountOk(s) && t < |s.threads| && StoreOk(s, t) && EntryNext(s, s', t)
    ensures OnlyThread(s, s', t) && SamePayload(s, s') && StoreOk(s', t) && LoadOk(s', t)
    ensures !s.threads[t].Writing? && !s'.threads[t].Writing?
  {
    hide Wrap;
  }

  lemma EntryOwner(s: State, s': State, t: nat)
    requires OwnerOk(s) && Guarded(s) && t < |s.threads| && s.modulus > 0 && StoreOk(s, t) && EntryNext(s, s', t)
    ensures OwnerOk(s')
  {
    hide Wrap;
  }

  /** A step of a load moves one thread, and if it starts to copy, it has the counter right. */
  lemma LoadThread(s: State, s': State, t: nat)
    requires CountOk(s) && PayloadOk(s) && t < |s.threads| && StoreOk(s, t) && LoadOk(s, t) && LoadNext(s, s', t)
    ensures s' == At(s, t, s'.threads[t]) && !InStore(s.threads[t]) && !InStore(s'.threads[t])
    ensures StoreOk(s', t) && LoadOk(s', t)
  {
    hide Wrap;
    if CopyWord(s, s', t) && s.threads[t].since == s.incs && s.incs % 2 == 0 {
      assert s.words == Last(s) == s.vals[s.incs / 2];
    }
  }

  lemma LoadInv(s: State, s': State, t: nat)
    requires Inv(s) && LoadNext(s, s', t)
    ensures Inv(s')
  {
    hide Wrap;
    assert StoreOk(s, t) && LoadOk(s, t);
    LoadThread(s, s', t);
    hide LoadNext;
    ThreadsFrame(s, s', t);
  }

  /** Readers whose sample is older than the counter keep what is known of them. */
  lemma PayloadFrame(s: State, s': State, t: nat)
    requires CountOk(s) && OwnerOk(s) && ThreadsOk(s) && OnlyThread(s, s', t) && s.owner == Some(t)
    requires s.incs <= s'.incs && s.vals <= s'.vals && (s'.incs == s.incs ==> s.incs % 2 == 1)
    requires StoreOk(s', t) && LoadOk(s', t)
    ensures ThreadsOk(s')
  {
    hide Wrap;
    forall u | 0 <= u < |s'.threads| ensures StoreOk(s', u) && LoadOk(s', u) {
      assert StoreOk(s, u) && LoadOk(s, u);
    }
  }

  lemma OpenInv(s: State, s': State, t: nat)
    requires Inv(s) && Guarded(s) && Open(s, s', t)
    ensures Inv(s')
  {
    hide Wrap;
    assert StoreOk(s, t);
    WrapAdd(s.incs, 1, s.modulus);
    assert s.words == Last(s) == s'.threads[t].v[..0] + Last(s')[0..];
    PayloadFrame(s, s', t);
  }

  lemma WriteInv(s: State, s': State, t: nat)
    requires Inv(s) && Guarded(s) && WriteWord(s, s', t)
    ensures Inv(s')
  {
    hide Wrap;
    assert StoreOk(s, t);
    PayloadFrame(s, s', t);
  }

  lemma CloseInv(s: State, s': State, t: nat)
    requires Inv(s) && Guarded(s) && Close(s, s', t)
    ensures Inv(s')
  {
    hide Wrap;
    assert StoreOk(s, t);
    WrapAdd(s.incs, 1, s.modulus);
    WrapAdd(s.incs - 1, 2, s.modulus);
    PayloadFrame(s, s', t);
  }

  lemma InvNext(s: State, s': State, t: nat)
    requires Inv(s) && Guarded(s) && Next(s, s', t)
    ensures Inv(s') && Guarded(s')
  {
    hide Inv;
    if EntryNext(s, s', t) {
      EntryInv(s, s', t);
    } else if LoadNext(s, s', t) {
      LoadInv(s, s', t);
    } else if Open(s, s', t) {
      OpenInv(s, s', t);
    } else if WriteWord(s, s', t) {
      WriteInv(s, s', t);
    } else {
      CloseInv(s, s', t);
    }
  }

  lemma {:induction false} RunInv(run: Run<State>)
    requires IsRun(run) && Guarded(run.s)
    ensures Inv(run.s)
  {
    hide Inv, Init;
    match run
    case Start(s) => InitInv(s);
    case Then(before, s) =>
      var t :| Next(before.s, s, t);
      SameKind(before.s, s, t);
      RunInv(before);
      InvNext(before.s, s, t);
  }

  lemma SameKind(s: State, s': State, t: nat)
    requires Next(s, s', t)
    ensures s'.kind == s.kind && s'.modulus == s.modulus && s'.single == s.single
  {
    if EntryNext(s, s', t) {
    } else {
    }
  }
}

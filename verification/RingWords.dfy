/** The ring buffer as it runs, with positions in machine words of 64 bits: each of its runs goes in step
    with a run on unbounded positions. */
module RingWords {
  import opened Runs
  import opened Bits
  import opened RingModel
  import opened RingInvariant
  import opened RingTheorems
  import opened RingDeadlock

  const BITS := 64

  /** Buffer, messages and alignments of less than 2^62 bytes. */
  ghost predicate Small(size: nat, plan: seq<Message>) {
    size < WORD / 4 && forall k :: 0 <= k < |plan| ==> |plan[k].bytes| < WORD / 4 && plan[k].alignment <= WORD / 4
  }

  /* ----- the machine on words ----- */

  lemma PowerNext(k: nat)
    ensures Pow2(k + 1) == 2 * Pow2(k)
  {
  }

  lemma PowerOfByte(k: nat)
    ensures Pow2(k + 8) == 0x100 * Pow2(k)
  {
    hide Pow2;
    PowerNext(k);
    PowerNext(k + 1);
    PowerNext(k + 2);
    PowerNext(k + 3);
    PowerNext(k + 4);
    PowerNext(k + 5);
    PowerNext(k + 6);
    PowerNext(k + 7);
  }

  lemma PowerOfNone(k: nat)
    requires k == 0
    ensures Pow2(k) == 1
  {
  }

  lemma PowerOfBits()
    ensures Pow2(BITS) == WORD
  {
    hide Pow2;
    PowerOfNone(0);
    PowerOfByte(0);
    PowerOfByte(8);
    PowerOfByte(16);
    PowerOfByte(24);
    PowerOfByte(32);
    PowerOfByte(40);
    PowerOfByte(48);
    PowerOfByte(56);
  }

  /** Align and take the space within the cached limit, or wait for it, on a new lap if need be. */
  function PreparedWord(e: End, m: Message, size: nat): End
    requires 1 <= m.alignment <= Pow2(BITS)
  {
    var pos := Align(e.pos, m.alignment, BITS);
    var end := Word(pos + |m.bytes|);
    if end <= e.end then e.(pos := end, pc := Copying(pos, []))
    else if end <= size then e.(pc := Waiting(pos, end, Sampling))
    else e.(base := Word(e.base + size), pc := Waiting(0, Word(end - pos), Sampling))
  }

  ghost predicate PrepareWord(s: State, s': State, x: Side) {
    var e := Get(s, x);
    && e.pc == Idle && e.next < |s.plan|
    && 1 <= s.plan[e.next].alignment <= Pow2(BITS)
    && s' == Put(s, x, PreparedWord(e, s.plan[e.next], s.size))
  }

  /** The signed comparison of the words. */
  ghost predicate SampleWord(s: State, s': State, x: Side) {
    var e := Get(s, x);
    && e.pc.Waiting? && e.pc.stage == Sampling
    && var seen := Get(s, Other(x)).shared;
       var available := Word(seen - e.base + Credit(s, x));
       if Signed(available) >= Signed(e.pc.end) then
         s' == Put(s, x, e.(end := Min(available, s.size), pos := e.pc.end, pc := Copying(e.pc.pos, [])))
       else
         s' == Put(s, x, e.(pc := e.pc.(stage := Requesting(seen))))
  }

  ghost predicate StoreWord(s: State, s': State, x: Side) {
    var e := Get(s, x);
    && e.pc == Idle
    && s' == Put(s, x, e.(shared := Word(e.base + e.pos), done := e.next, pc := Stored))
  }

  /** The other transitions only copy and compare positions. */
  ghost predicate WordNext(s: State, s': State, x: Side) {
    || PrepareWord(s, s', x) || SampleWord(s, s', x) || StoreWord(s, s', x)
    || CopyByte(s, s', x) || EndCopy(s, s', x) || SignalNext(s, s', x)
  }

  ghost predicate WordSteps(s: State, s': State) {
    WordNext(s, s', Writer) || WordNext(s, s', Reader)
  }

  ghost predicate IsWordRun(run: Run<State>)
    decreases run, 0
  {
    match run
    case Start(s) => Init(s)
    case Then(before, s) => WordExtends(before, s)
  }

  ghost predicate WordExtends(before: Run<State>, s: State)
    decreases before, 1
  {
    IsWordRun(before) && WordSteps(before.s, s)
  }

  /* ----- what the words show of a state ----- */

  function InWait(stage: Wait): Wait {
    match stage
    case Sampling => Sampling
    case Requesting(seen) => Requesting(Word(seen))
    case Rechecking(seen) => Rechecking(Word(seen))
    case Cancelling(seen) => Cancelling(Word(seen))
    case Parked(seen) => Parked(Word(seen))
  }

  function InPC(pc: PC): PC {
    match pc
    case Waiting(pos, end, stage) => Waiting(pos, end, InWait(stage))
    case _ => pc
  }

  function InEnd(e: End): End {
    e.(base := Word(e.base), shared := Word(e.shared), pc := InPC(e.pc))
  }

  function InWords(s: State): State {
    s.(writer := InEnd(s.writer), reader := InEnd(s.reader))
  }

  /** `e` takes the place of a side, and the words follow. */
  lemma PutInWords(s: State, x: Side, e: End)
    ensures InWords(Put(s, x, e)) == Put(InWords(s), x, InEnd(e))
    ensures Get(InWords(s), x) == InEnd(Get(s, x))
  {
  }

  /* ----- the arithmetic goes the same way ----- */

  lemma WordAdd(a: int, n: int)
    ensures Word(Word(a) + n) == Word(a + n)
  {
    var k := a / WORD;
    assert a == WORD * k + Word(a);
    assert a + n == WORD * k + (Word(a) + n);
  }

  lemma AlignInWord(pos: nat, alignment: nat)
    requires IsPow2(alignment) && alignment <= WORD / 4 && pos < WORD / 2
    ensures 1 <= alignment <= Pow2(BITS) && Align(pos, alignment, BITS) == AlignUp(pos, alignment)
    ensures AlignUp(pos, alignment) < pos + alignment
  {
    var k: nat :| alignment == Pow2(k);
    PowerOfBits();
    if k > BITS {
      PowMono(BITS, k);
      assert false;
    }
    hide Pow2, Align, AlignUp;
    AlignIsLeast(pos, k, BITS);
    AlignUpIsLeast(pos, alignment);
  }

  lemma WordOf(a: int)
    requires 0 <= a < WORD
    ensures Word(a) == a
  {
  }

  lemma PreparedAlike(s: State, x: Side)
    requires Small(s.size, s.plan) && PlanOk(s.plan) && Get(s, x).pos <= s.size && Get(s, x).next < |s.plan|
    ensures 1 <= s.plan[Get(s, x).next].alignment <= Pow2(BITS)
    ensures InWords(Prepared(s, x))
         == Put(InWords(s), x, PreparedWord(InEnd(Get(s, x)), s.plan[Get(s, x).next], s.size))
  {
    hide AlignUp, Align, Word, Pow2;
    var e := Get(s, x);
    var m := s.plan[e.next];
    AlignInWord(e.pos, m.alignment);
    var pos := AlignUp(e.pos, m.alignment);
    WordOf(pos + |m.bytes|);
    WordOf(|m.bytes|);
    WordAdd(e.base, s.size);
    hide IsPow2;
  }

  /* ----- each transition, in words and unbounded ----- */

  /** What a side that stands between messages knows. */
  ghost predicate Standing(s: State, x: Side) {
    Small(s.size, s.plan) && PlanOk(s.plan) && (Get(s, x).pc == Idle ==> Get(s, x).pos <= s.size)
  }

  lemma PrepareForward(s: State, s': State, x: Side)
    requires Standing(s, x) && Prepare(s, s', x)
    ensures PrepareWord(InWords(s), InWords(s'), x)
  {
    hide AlignUp, Small, PlanOk, PreparedWord;
    assert s' == Prepared(s, x);
    PreparedAlike(s, x);
    PutInWords(s, x, Get(s, x));
  }

  lemma PrepareBack(s: State, w': State, x: Side) returns (s': State)
    requires Standing(s, x) && PrepareWord(InWords(s), w', x)
    ensures Prepare(s, s', x) && InWords(s') == w'
  {
    hide Small, PlanOk, PreparedWord, Prepared, Prepare;
    PutInWords(s, x, Get(s, x));
    s' := Prepared(s, x);
    PreparedOk(s, x);
    PreparedAlike(s, x);
  }

  lemma StoreForward(s: State, s': State, x: Side)
    requires Store(s, s', x)
    ensures StoreWord(InWords(s), InWords(s'), x)
  {
    hide Word;
    WordAdd(Get(s, x).base, Get(s, x).pos);
  }

  lemma StoreBack(s: State, w': State, x: Side) returns (s': State)
    requires StoreWord(InWords(s), w', x)
    ensures Store(s, s', x) && InWords(s') == w'
  {
    hide Word;
    var e := Get(s, x);
    s' := Put(s, x, e.(shared := e.base + e.pos, done := e.next, pc := Stored));
    WordAdd(e.base, e.pos);
  }

  /** A wait in which the words decide as the unbounded positions do. */
  ghost predicate SameDecision(s: State, x: Side) {
    var e, o := Get(s, x), Get(s, Other(x));
    e.pc.Waiting? ==>
      && (Signed(AvailableWord(s, x)) >= Signed(e.pc.end) <==> Available(s, x, o.shared) >= e.pc.end)
      && (Available(s, x, o.shared) >= e.pc.end ==> AvailableWord(s, x) == Available(s, x, o.shared))
      && (e.pc.stage != Sampling ==> (Word(o.shared) != Word(e.pc.stage.seen) <==> o.shared != e.pc.stage.seen))
  }

  lemma SampleForward(s: State, s': State, x: Side)
    requires SameDecision(s, x) && Sample(s, s', x)
    ensures SampleWord(InWords(s), InWords(s'), x)
  {
    hide Word, Signed;
  }

  lemma SampleBack(s: State, w': State, x: Side) returns (s': State)
    requires SameDecision(s, x) && SampleWord(InWords(s), w', x)
    ensures Sample(s, s', x) && InWords(s') == w'
  {
    hide Word, Signed;
    var e := Get(s, x);
    var seen := Get(s, Other(x)).shared;
    var available := Available(s, x, seen);
    s' := if available >= e.pc.end then Put(s, x, e.(end := Min(available, s.size), pos := e.pc.end, pc := Copying(e.pc.pos, [])))
          else Put(s, x, e.(pc := e.pc.(stage := Requesting(seen))));
  }

  lemma CopyForward(s: State, s': State, x: Side)
    ensures CopyByte(s, s', x) ==> CopyByte(InWords(s), InWords(s'), x)
    ensures EndCopy(s, s', x) ==> EndCopy(InWords(s), InWords(s'), x)
  {
    hide Word;
  }

  lemma CopyByteBack(s: State, w': State, x: Side) returns (s': State)
    requires CopyByte(InWords(s), w', x)
    ensures CopyByte(s, s', x) && InWords(s') == w'
  {
    hide Word;
    var e := Get(s, x);
    var at := e.pc.pos + |e.pc.got|;
    if x == Writer {
      var b := s.plan[e.next].bytes[|e.pc.got|];
      s' := s.(buffer := s.buffer[at := b], writer := e.(pc := e.pc.(got := e.pc.got + [b])));
    } else {
      s' := s.(reader := e.(pc := e.pc.(got := e.pc.got + [s.buffer[at]])));
    }
  }

  lemma EndCopyBack(s: State, w': State, x: Side) returns (s': State)
    requires EndCopy(InWords(s), w', x)
    ensures EndCopy(s, s', x) && InWords(s') == w'
  {
    hide Word;
    var e := Get(s, x);
    s' := Put(s, x, e.(next := e.next + 1, pc := Idle));
    if x == Reader {
      s' := s'.(received := s'.received + [e.pc.got]);
    }
  }

  lemma RequestForward(s: State, s': State, x: Side)
    requires Request(s, s', x)
    ensures Request(InWords(s), InWords(s'), x)
  {
    hide Word;
  }

  lemma RequestBack(s: State, w': State, x: Side) returns (s': State)
    requires Request(InWords(s), w', x)
    ensures Request(s, s', x) && InWords(s') == w'
  {
    hide Word;
    var e, o := Get(s, x), Get(s, Other(x));
    s' := Put(Put(s, Other(x), o.(shouldSignal := true)), x, e.(pc := e.pc.(stage := Rechecking(e.pc.stage.seen))));
  }

  lemma RecheckForward(s: State, s': State, x: Side)
    requires SameDecision(s, x) && Recheck(s, s', x)
    ensures Recheck(InWords(s), InWords(s'), x)
  {
    hide Word, Signed;
  }

  lemma RecheckBack(s: State, w': State, x: Side) returns (s': State)
    requires SameDecision(s, x) && Recheck(InWords(s), w', x)
    ensures Recheck(s, s', x) && InWords(s') == w'
  {
    hide Word, Signed;
    var e, o := Get(s, x), Get(s, Other(x));
    var seen := e.pc.stage.seen;
    s' := Put(s, x, e.(pc := e.pc.(stage := if o.shared != seen then Cancelling(seen) else Parked(seen))));
  }

  lemma CancelForward(s: State, s': State, x: Side)
    requires Cancel(s, s', x)
    ensures Cancel(InWords(s), InWords(s'), x)
  {
    hide Word;
  }

  lemma CancelBack(s: State, w': State, x: Side) returns (s': State)
    requires Cancel(InWords(s), w', x)
    ensures Cancel(s, s', x) && InWords(s') == w'
  {
    hide Word;
    var e, o := Get(s, x), Get(s, Other(x));
    s' := Put(Put(s, Other(x), o.(shouldSignal := false)),
              x, e.(pc := e.pc.(stage := if o.shouldSignal then Sampling else Parked(e.pc.stage.seen))));
  }

  /** A token taken, or a publication followed up. */
  lemma TokenForward(s: State, s': State, x: Side)
    ensures Wake(s, s', x) ==> Wake(InWords(s), InWords(s'), x)
    ensures Exchange(s, s', x) ==> Exchange(InWords(s), InWords(s'), x)
    ensures Signal(s, s', x) ==> Signal(InWords(s), InWords(s'), x)
  {
    hide Word;
  }

  lemma WakeBack(s: State, w': State, x: Side) returns (s': State)
    requires Wake(InWords(s), w', x)
    ensures Wake(s, s', x) && InWords(s') == w'
  {
    hide Word;
    var e := Get(s, x);
    s' := Put(s, x, e.(semaphore := e.semaphore - 1, pc := e.pc.(stage := Sampling)));
  }

  lemma ExchangeBack(s: State, w': State, x: Side) returns (s': State)
    requires Exchange(InWords(s), w', x)
    ensures Exchange(s, s', x) && InWords(s') == w'
  {
    hide Word;
    var e := Get(s, x);
    s' := Put(s, x, e.(shouldSignal := false, pc := if e.shouldSignal then Signalling else Idle));
  }

  lemma SignalBack(s: State, w': State, x: Side) returns (s': State)
    requires Signal(InWords(s), w', x)
    ensures Signal(s, s', x) && InWords(s') == w'
  {
    hide Word;
    var e, o := Get(s, x), Get(s, Other(x));
    s' := Put(Put(s, Other(x), o.(semaphore := o.semaphore + 1)), x, e.(pc := Idle));
  }

  lemma NextForward(s: State, s': State, x: Side)
    requires Standing(s, x) && SameDecision(s, x) && Next(s, s', x)
    ensures WordNext(InWords(s), InWords(s'), x)
  {
    hide InWords, Standing, SameDecision, Prepare, Sample, Store, CopyByte, EndCopy, Request, Recheck, Cancel, Wake, Exchange, Signal,
      PrepareWord, SampleWord, StoreWord;
    CopyForward(s, s', x);
    TokenForward(s, s', x);
    if Prepare(s, s', x) {
      PrepareForward(s, s', x);
    } else if Sample(s, s', x) {
      SampleForward(s, s', x);
    } else if Store(s, s', x) {
      StoreForward(s, s', x);
    } else if Request(s, s', x) {
      RequestForward(s, s', x);
    } else if Recheck(s, s', x) {
      RecheckForward(s, s', x);
    } else if Cancel(s, s', x) {
      CancelForward(s, s', x);
    }
  }

  lemma NextBack(s: State, w': State, x: Side) returns (s': State)
    requires Standing(s, x) && SameDecision(s, x) && WordNext(InWords(s), w', x)
    ensures Next(s, s', x) && InWords(s') == w'
  {
    hide InWords, Standing, SameDecision, Prepare, Sample, Store, CopyByte, EndCopy, Request, Recheck, Cancel, Wake, Exchange, Signal,
      PrepareWord, SampleWord, StoreWord;
    var w := InWords(s);
    if PrepareWord(w, w', x) {
      s' := PrepareBack(s, w', x);
    } else if SampleWord(w, w', x) {
      s' := SampleBack(s, w', x);
    } else if StoreWord(w, w', x) {
      s' := StoreBack(s, w', x);
    } else if CopyByte(w, w', x) {
      s' := CopyByteBack(s, w', x);
    } else if EndCopy(w, w', x) {
      s' := EndCopyBack(s, w', x);
    } else if Request(w, w', x) {
      s' := RequestBack(s, w', x);
    } else if Recheck(w, w', x) {
      s' := RecheckBack(s, w', x);
    } else if Cancel(w, w', x) {
      s' := CancelBack(s, w', x);
    } else if Wake(w, w', x) {
      s' := WakeBack(s, w', x);
    } else if Exchange(w, w', x) {
      s' := ExchangeBack(s, w', x);
    } else {
      s' := SignalBack(s, w', x);
    }
  }

  /* ----- every run in step ----- */

  /** The two runs make the same transitions, and the words are those of the unbounded positions. */
  ghost predicate InStep(wordRun: Run<State>, run: Run<State>) {
    && wordRun.s == InWords(run.s) && (wordRun.Start? <==> run.Start?)
    && (wordRun.Then? && run.Then? ==> InStep(wordRun.before, run.before))
  }

  lemma InitInWords(s: State)
    requires Init(s)
    ensures InWords(s) == s
  {
    WordOf(0);
    hide Word;
  }

  lemma {:induction false} Decides(run: Run<State>, x: Side)
    requires IsRun(run) && Small(run.s.size, run.s.plan)
    ensures Standing(run.s, x) && SameDecision(run.s, x)
  {
    hide IsRun, Word, Signed, AvailableWord;
    RunInv(run);
    if Get(run.s, x).pc.Waiting? {
      SameDecisionOnWords(run, x);
      WaitEnd(run, x);
      WordOf(Get(run.s, x).pc.end);
    }
  }

  lemma WordNextKeepsPlan(s: State, s': State, x: Side)
    requires WordNext(s, s', x)
    ensures s'.size == s.size && s'.plan == s.plan
  {
    hide Word, Signed, PreparedWord, Pow2;
    if SignalNext(s, s', x) {
    } else {
    }
  }

  /** Every run on words goes in step with a run on unbounded positions, however long it is. */
  lemma {:induction false} WordsInStep(wordRun: Run<State>) returns (run: Run<State>)
    requires IsWordRun(wordRun) && Small(wordRun.s.size, wordRun.s.plan)
    ensures IsRun(run) && InStep(wordRun, run)
  {
    hide WordNext, Next, Small, InWords, Init, Standing, SameDecision;
    match wordRun
    case Start(s) =>
      InitInWords(s);
      run := wordRun;
    case Then(before, s) =>
      var x := if WordNext(before.s, s, Writer) then Writer else Reader;
      WordNextKeepsPlan(before.s, s, x);
      run := WordsInStep(before);
      SmallInWords(run.s);
      Decides(run, x);
      var s' := NextBack(run.s, s, x);
      run := Then(run, s');
  }

  lemma SmallInWords(s: State)
    ensures InWords(s).size == s.size && InWords(s).plan == s.plan && InWords(s).received == s.received
  {
  }

  /** And the other way round: nothing that can happen on unbounded positions is lost. */
  lemma {:induction false} RunsInStep(run: Run<State>) returns (wordRun: Run<State>)
    requires IsRun(run) && Small(run.s.size, run.s.plan)
    ensures IsWordRun(wordRun) && InStep(wordRun, run)
  {
    hide WordNext, Next, Small, InWords, Init, Standing, SameDecision;
    match run
    case Start(s) =>
      InitInWords(s);
      wordRun := run;
    case Then(before, s) =>
      var x := if Next(before.s, s, Writer) then Writer else Reader;
      NextKeepsPlan(before.s, s, x);
      wordRun := RunsInStep(before);
      Decides(before, x);
      NextForward(before.s, s, x);
      wordRun := Then(wordRun, InWords(s));
  }

  lemma NextKeepsPlan(s: State, s': State, x: Side)
    requires Next(s, s', x)
    ensures s'.size == s.size && s'.plan == s.plan
  {
    hide AlignUp;
    if SignalNext(s, s', x) {
    } else {
    }
  }

  /** What holds of the ring on unbounded positions holds of it on words: the reader receives what was
      written, and no message sequence within half the buffer parks both sides. */
  lemma {:induction false} ReadsOnWords(wordRun: Run<State>)
    requires IsWordRun(wordRun) && Small(wordRun.s.size, wordRun.s.plan)
    ensures var s := wordRun.s;
            && |s.received| == s.reader.next <= |s.plan|
            && (forall k :: 0 <= k < |s.received| ==> s.received[k] == s.plan[k].bytes)
  {
    hide IsWordRun, IsRun, Small;
    var run := WordsInStep(wordRun);
    ReadsWhatWasWritten(run);
  }

  lemma {:induction false} NeverBothStuckOnWords(wordRun: Run<State>)
    requires IsWordRun(wordRun) && Small(wordRun.s.size, wordRun.s.plan)
    requires forall k :: 0 <= k < |wordRun.s.plan| ==>
               Regular(wordRun.s.plan[k]) && 2 * |wordRun.s.plan[k].bytes| <= wordRun.s.size
    requires FinishedEach(wordRun.s.writer) && FinishedEach(wordRun.s.reader)
    ensures !(Stuck(wordRun.s.writer) && Stuck(wordRun.s.reader))
  {
    hide IsWordRun, IsRun, Small, Regular;
    var run := WordsInStep(wordRun);
    NeverBothStuck(run);
  }
}

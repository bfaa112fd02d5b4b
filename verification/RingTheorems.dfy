/** What the ring buffer promises in every run. */
module RingTheorems {
  import opened Runs
  import opened Bits
  import opened RingModel
  import opened RingInvariant

  lemma {:induction false} RunInv(run: Run<State>)
    requires IsRun(run)
    ensures Inv(run.s)
  {
    match run
    case Start(s) => InitInv(s);
    case Then(before, s) =>
      RunInv(before);
      if Next(before.s, s, Writer) {
        InvNext(before.s, s, Writer);
      } else {
        InvNext(before.s, s, Reader);
      }
  }

  /** FIFO: the reader has received exactly the bytes of the first messages, in order, and it never
      passes what the writer has published. */
  lemma {:induction false} ReadsWhatWasWritten(run: Run<State>)
    requires IsRun(run)
    ensures var s := run.s;
            && |s.received| == s.reader.next <= |s.plan|
            && (forall k :: 0 <= k < |s.received| ==> s.received[k] == s.plan[k].bytes)
            && (s.reader.pc.Copying? ==> s.reader.next < |s.plan| && s.reader.pc.got <= s.plan[s.reader.next].bytes)
            && (!s.reader.pc.Waiting? ==> s.reader.base + s.reader.pos <= s.writer.shared)
  {
    hide IsRun;
    RunInv(run);
  }

  /** Both sides compute the same aligned, contiguous, in-bounds place for a message, from the message
      sequence alone. */
  lemma {:induction false} SamePlaces(run: Run<State>, x: Side)
    requires IsRun(run) && Get(run.s, x).pc.Copying?
    ensures var s, e := run.s, Get(run.s, x);
            && e.next < |s.plan| && PlanOk(s.plan)
            && Cursor(e.base, e.pc.pos) == Place(s.size, At(s.size, s.plan, e.next), s.plan[e.next])
            && e.pc.pos % s.plan[e.next].alignment == 0
            && e.pc.pos + |s.plan[e.next].bytes| == e.pos <= s.size
  {
    hide IsRun;
    RunInv(run);
    var s, e := run.s, Get(run.s, x);
    PlaceAligned(s.size, At(s.size, s.plan, e.next), s.plan[e.next]);
  }

  lemma PlaceAligned(size: nat, c: Cursor, m: Message)
    requires m.alignment >= 1
    ensures Place(size, c, m).pos % m.alignment == 0
  {
    AlignUpIsLeast(c.pos, m.alignment);
  }

  /** The writer never touches a byte the reader has not released: until FinishRead, a message that
      was read stays in the buffer as it was written. */
  lemma {:induction false} UnreleasedStays(run: Run<State>, k: nat, i: nat)
    requires IsRun(run) && run.s.reader.done <= k < run.s.writer.next && k < |run.s.plan|
    requires i < |run.s.plan[k].bytes|
    ensures PlanOk(run.s.plan) && |run.s.buffer| == run.s.size && ByteOk(run.s, k, i)
  {
    hide IsRun;
    RunInv(run);
  }

  /* ----- the handshake ----- */

  function Num(b: bool): nat {
    if b then 1 else 0
  }

  /** Side `x` has raised the request flag and neither cancelled nor consumed the answer. */
  predicate InRequest(e: End) {
    e.pc.Waiting? && (e.pc.stage.Rechecking? || e.pc.stage.Cancelling? || e.pc.stage.Parked?)
  }

  /** Per direction, request flag, semaphore and signals under way add up to one inside a request and
      to zero outside. */
  predicate OneToken(s: State, x: Side) {
    var e, o := Get(s, x), Get(s, Other(x));
    Num(o.shouldSignal) + e.semaphore + Num(o.pc == Signalling) == Num(InRequest(e))
  }

  /** A parked side whose flag is still up: the other side is about to see the flag, or its position
      is still the sampled one. */
  predicate NoLostWakeup(s: State, x: Side) {
    var e, o := Get(s, x), Get(s, Other(x));
    e.pc.Waiting? && e.pc.stage.Parked? && o.shouldSignal ==> o.pc == Stored || o.shared == e.pc.stage.seen
  }

  /** The sampled position was not enough. */
  predicate SampledTooLittle(s: State, x: Side) {
    var e := Get(s, x);
    e.pc.Waiting? && e.pc.stage != Sampling ==> Available(s, x, e.pc.stage.seen) < e.pc.end
  }

  predicate HandshakeOk(s: State, x: Side) {
    OneToken(s, x) && NoLostWakeup(s, x) && SampledTooLittle(s, x)
  }

  lemma PrepareKeepsHandshake(s: State, s': State, x: Side, y: Side)
    requires HandshakeOk(s, x) && Prepare(s, s', y)
    ensures HandshakeOk(s', x)
  {
  }

  lemma SampleKeepsHandshake(s: State, s': State, x: Side, y: Side)
    requires HandshakeOk(s, x) && Sample(s, s', y)
    ensures HandshakeOk(s', x)
  {
  }

  lemma CopyByteKeepsHandshake(s: State, s': State, x: Side, y: Side)
    requires HandshakeOk(s, x) && CopyByte(s, s', y)
    ensures HandshakeOk(s', x)
  {
  }

  lemma EndCopyKeepsHandshake(s: State, s': State, x: Side, y: Side)
    requires HandshakeOk(s, x) && EndCopy(s, s', y)
    ensures HandshakeOk(s', x)
  {
  }

  lemma StoreKeepsHandshake(s: State, s': State, x: Side, y: Side)
    requires HandshakeOk(s, x) && Store(s, s', y)
    ensures HandshakeOk(s', x)
  {
  }

  lemma DataKeepsHandshake(s: State, s': State, x: Side, y: Side)
    requires HandshakeOk(s, x) && DataNext(s, s', y)
    ensures HandshakeOk(s', x)
  {
    hide HandshakeOk, Prepare, Sample, CopyByte, EndCopy, Store;
    if Prepare(s, s', y) {
      PrepareKeepsHandshake(s, s', x, y);
    } else if Sample(s, s', y) {
      SampleKeepsHandshake(s, s', x, y);
    } else if CopyByte(s, s', y) {
      CopyByteKeepsHandshake(s, s', x, y);
    } else if EndCopy(s, s', y) {
      EndCopyKeepsHandshake(s, s', x, y);
    } else {
      StoreKeepsHandshake(s, s', x, y);
    }
  }

  lemma SignalKeepsHandshake(s: State, s': State, x: Side, y: Side)
    requires HandshakeOk(s, x) && SignalNext(s, s', y)
    ensures HandshakeOk(s', x)
  {
    if Request(s, s', y) {
    } else if Recheck(s, s', y) {
    } else if Cancel(s, s', y) {
    } else {
    }
  }

  lemma HandshakeNext(s: State, s': State, x: Side, y: Side)
    requires HandshakeOk(s, x) && Next(s, s', y)
    ensures HandshakeOk(s', x)
  {
    if DataNext(s, s', y) {
      DataKeepsHandshake(s, s', x, y);
    } else {
      SignalKeepsHandshake(s, s', x, y);
    }
  }

  lemma {:induction false} Handshake(run: Run<State>, x: Side)
    requires IsRun(run)
    ensures HandshakeOk(run.s, x)
  {
    match run
    case Start(s) =>
    case Then(before, s) =>
      Handshake(before, x);
      if Next(before.s, s, Writer) {
        HandshakeNext(before.s, s, x, Writer);
      } else {
        HandshakeNext(before.s, s, x, Reader);
      }
  }

  /* ----- progress ----- */

  /** The message fits when the other side has caught up: its end is at most one lap ahead of the
      position both sides stand at. */
  predicate FitsCaughtUp(size: nat, pos: nat, m: Message)
    requires m.alignment >= 1
  {
    Abs(Past(size, Cursor(0, pos), m)) <= pos + size
  }

  /** A positive multiple of its alignment. */
  predicate Regular(m: Message) {
    m.alignment >= 1 && |m.bytes| > 0 && |m.bytes| % m.alignment == 0
  }

  /** A message of at most half the buffer fits from every position. */
  lemma HalfFits(size: nat, pos: nat, m: Message)
    requires Regular(m) && 2 * |m.bytes| <= size && pos <= size
    ensures FitsCaughtUp(size, pos, m)
  {
    AlignUpIsLeast(pos, m.alignment);
    if pos < |m.bytes| {
      assert AlignUp(pos, m.alignment) <= |m.bytes|;
    }
  }

  /** Blocked until the other side acts: parked without a token. */
  predicate Stuck(e: End) {
    e.pc.Waiting? && e.pc.stage.Parked? && e.semaphore == 0
  }

  /** A waiting side has published all it has done: writes and reads are finished one at a time. */
  predicate FinishedEach(e: End) {
    e.pc.Waiting? ==> e.done == e.next
  }

  lemma {:induction false} StrictlyLater(size: nat, plan: seq<Message>, j: nat, k: nat)
    requires PlanOk(plan) && j < k <= |plan| && Fit(size, plan, k)
    requires forall i :: 0 <= i < |plan| ==> Regular(plan[i])
    ensures Abs(At(size, plan, j)) < Abs(At(size, plan, k))
  {
    AtMono(size, plan, j, k - 1);
    AtBounds(size, plan, k - 1);
    PastBounds(size, At(size, plan, k - 1), plan[k - 1]);
  }

  /** A stuck side waits for more than the other side has published. */
  lemma StuckNeedsMore(s: State, x: Side)
    requires Inv(s) && HandshakeOk(s, x) && Stuck(Get(s, x)) && Stuck(Get(s, Other(x))) && Get(s, x).next < |s.plan|
    ensures Abs(At(s.size, s.plan, Get(s, x).next + 1)) > Get(s, Other(x)).shared + Credit(s, x)
  {
    StepAt(s, Get(s, x).next);
  }

  lemma CaughtUp(s: State, k: nat)
    requires PlanOk(s.plan) && k < |s.plan| && Fit(s.size, s.plan, k)
    requires Regular(s.plan[k]) && 2 * |s.plan[k].bytes| <= s.size
    ensures Abs(At(s.size, s.plan, k + 1)) <= Abs(At(s.size, s.plan, k)) + s.size
  {
    AtBounds(s.size, s.plan, k);
    HalfFits(s.size, At(s.size, s.plan, k).pos, s.plan[k]);
  }

  /** Both sides parked without a wake-up under way, each write and read finished before the next one
      starts: they wait for the same message, and it does not fit although all before it is released. */
  lemma {:induction false} BothStuck(run: Run<State>)
    requires IsRun(run) && Stuck(run.s.writer) && Stuck(run.s.reader)
    requires forall k :: 0 <= k < |run.s.plan| ==> Regular(run.s.plan[k])
    requires FinishedEach(run.s.writer) && FinishedEach(run.s.reader)
    ensures var s := run.s;
            && s.writer.next == s.reader.next < |s.plan| && s.plan[s.writer.next].alignment >= 1
            && !FitsCaughtUp(s.size, s.writer.pos, s.plan[s.writer.next])
  {
    hide IsRun;
    RunInv(run);
    Handshake(run, Writer);
    Handshake(run, Reader);
    var s := run.s;
    var w, r := s.writer.next, s.reader.next;
    StuckNeedsMore(s, Writer);
    StuckNeedsMore(s, Reader);
    if r < w {
      AtMono(s.size, s.plan, r + 1, w);
    } else if w < r {
      StrictlyLater(s.size, s.plan, w, r);
    }
    AtBounds(s.size, s.plan, w);
    PastFromBase(s.size, At(s.size, s.plan, w), s.plan[w]);
  }

  lemma PastFromBase(size: nat, c: Cursor, m: Message)
    requires m.alignment >= 1
    ensures Abs(Past(size, c, m)) == c.base + Abs(Past(size, Cursor(0, c.pos), m))
  {
  }

  /** Two stuck sides stay stuck: there is no transition left. */
  lemma BothStuckForever(s: State, s': State)
    requires Stuck(s.writer) && Stuck(s.reader)
    ensures !Steps(s, s')
  {
  }

  /** Deadlock freedom: with messages of at most half the buffer, finished one at a time, writer and
      reader are never both parked without a wake-up under way. */
  lemma {:induction false} NeverBothStuck(run: Run<State>)
    requires IsRun(run)
    requires forall k :: 0 <= k < |run.s.plan| ==> Regular(run.s.plan[k]) && 2 * |run.s.plan[k].bytes| <= run.s.size
    requires FinishedEach(run.s.writer) && FinishedEach(run.s.reader)
    ensures !(Stuck(run.s.writer) && Stuck(run.s.reader))
  {
    hide IsRun;
    if Stuck(run.s.writer) && Stuck(run.s.reader) {
      BothStuck(run);
      RunInv(run);
      var k := run.s.writer.next;
      AtBounds(run.s.size, run.s.plan, k);
      HalfFits(run.s.size, run.s.writer.pos, run.s.plan[k]);
      assert false;
    }
  }

  /** A stuck writer waits for a reader that has a published message to consume, or is about to wake it. */
  lemma {:induction false} StuckWriterWaitsForWork(run: Run<State>)
    requires IsRun(run) && Stuck(run.s.writer) && FinishedEach(run.s.writer)
    requires forall k :: 0 <= k < |run.s.plan| ==> Regular(run.s.plan[k]) && 2 * |run.s.plan[k].bytes| <= run.s.size
    ensures run.s.reader.pc == Stored || run.s.reader.pc == Signalling || run.s.reader.done < run.s.writer.done
  {
    hide IsRun;
    RunInv(run);
    Handshake(run, Writer);
    var s := run.s;
    if s.reader.pc != Stored && s.reader.pc != Signalling && s.reader.done >= s.writer.next {
      StepAt(s, s.writer.next);
      AtMono(s.size, s.plan, s.writer.next, s.reader.done);
      CaughtUp(s, s.writer.next);
      assert false;
    }
  }

  /** A stuck reader waits for a message that is not published yet, or is about to be woken. */
  lemma {:induction false} StuckReaderWaitsForWork(run: Run<State>)
    requires IsRun(run) && Stuck(run.s.reader)
    ensures run.s.writer.pc == Stored || run.s.writer.pc == Signalling || run.s.writer.done <= run.s.reader.next
  {
    hide IsRun;
    RunInv(run);
    Handshake(run, Reader);
    var s := run.s;
    if s.writer.pc != Stored && s.writer.pc != Signalling && s.reader.next < s.writer.done {
      StepAt(s, s.reader.next);
      AtMono(s.size, s.plan, s.reader.next + 1, s.writer.done);
      assert false;
    }
  }

  /* ----- version 1 ----- */

  /** The state of the spinning version: positions and bytes, without flags and semaphores. */
  function Spinning(e: End): End {
    e.(shouldSignal := false, semaphore := 0,
       pc := if e.pc.Waiting? then e.pc.(stage := Sampling)
             else if e.pc.Copying? then e.pc else Idle)
  }

  function Version1(s: State): State {
    s.(writer := Spinning(s.writer), reader := Spinning(s.reader))
  }

  /** A transition of version 1: a sample that is not enough is simply repeated, and publishing is one
      store. */
  ghost predicate NextVersion1(s: State, s': State, x: Side) {
    || Prepare(s, s', x) || CopyByte(s, s', x) || EndCopy(s, s', x)
    || (Sample(s, s', x) && Get(s', x).pc.Copying?)
    || (exists t :: Store(s, t, x) && s' == Version1(t))
  }

  /** Version 2 refines version 1: every transition is one of version 1 or does not touch its state, so
      both versions have the same data behaviour. */
  lemma Version2RefinesVersion1(s: State, s': State, x: Side)
    requires Next(s, s', x)
    ensures Version1(s') == Version1(s) || NextVersion1(Version1(s), Version1(s'), x)
  {
    if Store(s, s', x) {
      var e := Get(Version1(s), x);
      var t := Put(Version1(s), x, e.(shared := e.base + e.pos, done := e.next, pc := Stored));
      assert Store(Version1(s), t, x) && Version1(t) == Version1(s');
    } else if DataNext(s, s', x) {
      DataRefines(s, s', x);
    } else {
      SignalRefines(s, s', x);
    }
  }

  lemma DataRefines(s: State, s': State, x: Side)
    requires DataNext(s, s', x) && !Store(s, s', x)
    ensures Version1(s') == Version1(s) || NextVersion1(Version1(s), Version1(s'), x)
  {
    if Prepare(s, s', x) {
      assert Prepare(Version1(s), Version1(s'), x);
    } else if Sample(s, s', x) {
      assert Get(s', x).pc.Copying? ==> Sample(Version1(s), Version1(s'), x);
    } else if CopyByte(s, s', x) {
      assert CopyByte(Version1(s), Version1(s'), x);
    } else {
      assert EndCopy(Version1(s), Version1(s'), x);
    }
  }

  lemma SignalRefines(s: State, s': State, x: Side)
    requires SignalNext(s, s', x)
    ensures Version1(s') == Version1(s)
  {
    if Request(s, s', x) {
    } else if Recheck(s, s', x) {
    } else if Cancel(s, s', x) {
    } else {
    }
  }

  ghost predicate IsRunOfVersion1(run: Run<State>) {
    match run
    case Start(s) => Init(s)
    case Then(before, s) =>
      IsRunOfVersion1(before) && (NextVersion1(before.s, s, Writer) || NextVersion1(before.s, s, Reader))
  }

  /** So every run of version 2 is one of version 1 on the data: the same bytes in the same places, the same
      published positions and the same messages received. */
  lemma {:induction false} RunRefinesVersion1(run: Run<State>) returns (spin: Run<State>)
    requires IsRun(run)
    ensures IsRunOfVersion1(spin) && spin.s == Version1(run.s)
    ensures spin.s.buffer == run.s.buffer && spin.s.received == run.s.received
    ensures spin.s.writer.shared == run.s.writer.shared && spin.s.reader.shared == run.s.reader.shared
  {
    hide Next, NextVersion1;
    match run
    case Start(s) =>
      spin := run;
    case Then(before, s) =>
      spin := RunRefinesVersion1(before);
      var x := if Next(before.s, s, Writer) then Writer else Reader;
      Version2RefinesVersion1(before.s, s, x);
      if Version1(s) != spin.s {
        spin := Then(spin, Version1(s));
      }
  }

  /* ----- machine words ----- */

  const WORD: int := 0x1_0000_0000_0000_0000

  function Word(x: int): (w: nat)
    ensures w < WORD
  {
    x % WORD
  }

  /** A word read as a signed number, as `static_cast<ptrdiff_t>` does. */
  function Signed(w: int): int {
    if w < WORD / 2 then w else w - WORD
  }

  lemma SignedDifference(a: int, b: int, n: int)
    requires -WORD / 2 <= a - b + n < WORD / 2
    ensures Signed(Word(Word(a) - Word(b) + n)) == a - b + n
  {
    var k, l := a / WORD, b / WORD;
    assert a == WORD * k + Word(a) && b == WORD * l + Word(b);
    var d := Word(a) - Word(b) + n;
    assert a - b + n == WORD * (k - l) + d;
  }

  lemma {:induction false} WaitBounds(run: Run<State>, x: Side)
    requires IsRun(run) && Get(run.s, x).pc.Waiting?
    ensures 0 - run.s.size <= Available(run.s, x, Get(run.s, Other(x)).shared) <= 2 * run.s.size
  {
    hide IsRun;
    RunInv(run);
    AvailableBounds(run.s, x);
  }

  /** The sampled position, counted from this side's lap, stays within the same bounds while it waits. */
  predicate SeenOk(s: State, x: Side) {
    var pc := Get(s, x).pc;
    pc.Waiting? && pc.stage != Sampling ==> 0 - s.size <= Available(s, x, pc.stage.seen) <= 2 * s.size
  }

  lemma SeenOfOther(s: State, s': State, x: Side)
    requires SeenOk(s, x) && Next(s, s', Other(x))
    ensures SeenOk(s', x)
  {
    if DataNext(s, s', Other(x)) {
    } else {
    }
  }

  lemma SeenOfSelf(s: State, s': State, x: Side)
    requires SeenOk(s, x) && Next(s, s', x)
    requires Get(s, x).pc.Waiting? ==>
               0 - s.size <= Available(s, x, Get(s, Other(x)).shared) <= 2 * s.size
    ensures SeenOk(s', x)
  {
    if DataNext(s, s', x) {
      hide AlignUp;
    } else {
    }
  }

  lemma {:induction false} SeenBounds(run: Run<State>, x: Side)
    requires IsRun(run)
    ensures SeenOk(run.s, x)
  {
    hide Next, SeenOk, Init;
    match run
    case Start(s) => SeenAtStart(s, x);
    case Then(before, s) =>
      SeenBounds(before, x);
      if Next(before.s, s, Other(x)) {
        SeenOfOther(before.s, s, x);
      } else {
        if Get(before.s, x).pc.Waiting? {
          WaitBounds(before, x);
        }
        SeenOfSelf(before.s, s, x);
      }
  }

  lemma SeenAtStart(s: State, x: Side)
    requires Init(s)
    ensures SeenOk(s, x)
  {
  }

  lemma {:induction false} WaitEnd(run: Run<State>, x: Side)
    requires IsRun(run) && Get(run.s, x).pc.Waiting?
    ensures var s, e := run.s, Get(run.s, x);
            e.next < |s.plan| && (e.pc.end <= s.size || e.pc.end == |s.plan[e.next].bytes|)
  {
    hide IsRun, AlignUp;
    RunInv(run);
  }

  lemma SmallWord(a: int)
    requires 0 <= a < WORD / 2
    ensures Word(a) == a && Signed(a) == a
  {
  }

  /** The difference as the program computes it, in a word. */
  function AvailableWord(s: State, x: Side): int {
    Word(Word(Get(s, Other(x)).shared) - Word(Get(s, x).base) + Credit(s, x))
  }

  /** With a buffer and messages of less than 2^62 bytes, positions kept modulo 2^64 decide every wait as
      unbounded positions would, however long the run: the signed comparison goes the same way, the limit
      taken over is the same, and the re-check notices exactly the changes there are. */
  lemma {:induction false} SameDecisionOnWords(run: Run<State>, x: Side)
    requires IsRun(run) && run.s.size < WORD / 4 && Get(run.s, x).pc.Waiting?
    requires forall k :: 0 <= k < |run.s.plan| ==> |run.s.plan[k].bytes| < WORD / 4
    ensures var s, e, o := run.s, Get(run.s, x), Get(run.s, Other(x));
            && (Signed(AvailableWord(s, x)) >= Signed(Word(e.pc.end)) <==> Available(s, x, o.shared) >= e.pc.end)
            && (Available(s, x, o.shared) >= e.pc.end ==> AvailableWord(s, x) == Available(s, x, o.shared))
            && (e.pc.stage != Sampling ==> (Word(o.shared) != Word(e.pc.stage.seen) <==> o.shared != e.pc.stage.seen))
  {
    hide IsRun, Word, Signed;
    WaitBounds(run, x);
    WaitEnd(run, x);
    SeenBounds(run, x);
    var s, e, o := run.s, Get(run.s, x), Get(run.s, Other(x));
    SignedDifference(o.shared, e.base, Credit(s, x));
    SmallWord(e.pc.end);
    if Available(s, x, o.shared) >= 0 {
      WordDifference(o.shared, e.base, Credit(s, x));
    }
    if e.pc.stage != Sampling && Word(o.shared) == Word(e.pc.stage.seen) {
      SameWord(o.shared, e.pc.stage.seen);
    }
  }

  lemma WordDifference(a: int, b: int, n: int)
    requires 0 <= a - b + n < WORD
    ensures Word(Word(a) - Word(b) + n) == a - b + n
  {
    var k, l := a / WORD, b / WORD;
    assert a - b + n == WORD * (k - l) + (Word(a) - Word(b) + n);
  }

  lemma SameWord(a: int, b: int)
    requires Word(a) == Word(b) && -WORD < a - b < WORD
    ensures a == b
  {
  }
}

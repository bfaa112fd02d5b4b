/** Which message sequences can leave writer and reader of the ring buffer parked for ever. */
module RingDeadlock {
  import opened Runs
  import opened Bits
  import opened RingModel
  import opened RingInvariant
  import opened RingTheorems

  /* ----- a side that gets its space runs through ----- */

  /** Side `x` has moved and the other has not. */
  ghost predicate Alone(s: State, s': State, x: Side) {
    && s'.size == s.size && s'.plan == s.plan && Get(s', Other(x)) == Get(s, Other(x))
    && Get(s', x).shouldSignal == Get(s, x).shouldSignal && Get(s', x).semaphore == Get(s, x).semaphore
  }

  lemma {:induction false} Extend(run: Run<State>, s': State, x: Side) returns (longer: Run<State>)
    requires IsRun(run) && Next(run.s, s', x)
    ensures IsRun(longer) && longer.s == s'
  {
    longer := Then(run, s');
  }

  /** Where `Prepare` leads. */
  function Prepared(s: State, x: Side): State
    requires Get(s, x).next < |s.plan| && s.plan[Get(s, x).next].alignment >= 1
  {
    var e := Get(s, x);
    var m := s.plan[e.next];
    var pos := AlignUp(e.pos, m.alignment);
    var end := pos + |m.bytes|;
    if end <= e.end then Put(s, x, e.(pos := end, pc := Copying(pos, [])))
    else if end <= s.size then Put(s, x, e.(pc := Waiting(pos, end, Sampling)))
    else Put(s, x, e.(base := e.base + s.size, pc := Waiting(0, end - pos, Sampling)))
  }

  lemma PreparedOk(s: State, x: Side)
    requires Get(s, x).pc == Idle && Get(s, x).next < |s.plan| && s.plan[Get(s, x).next].alignment >= 1
    ensures Prepare(s, Prepared(s, x), x)
  {
    hide AlignUp;
  }

  lemma PreparedAlone(s: State, x: Side)
    requires Get(s, x).pc == Idle && Get(s, x).next < |s.plan| && s.plan[Get(s, x).next].alignment >= 1
    ensures var s' := Prepared(s, x);
            var e, e' := Get(s, x), Get(s', x);
            && Alone(s, s', x) && e'.next == e.next && e'.done == e.done && e'.shared == e.shared
            && (e'.pc.Copying? || (e'.pc.Waiting? && e'.pc.stage == Sampling))
  {
    hide AlignUp;
  }

  lemma {:induction false} Prepares(run: Run<State>, x: Side) returns (later: Run<State>)
    requires IsRun(run) && Get(run.s, x).pc == Idle && Get(run.s, x).next < |run.s.plan|
    ensures IsRun(later) && Alone(run.s, later.s, x)
    ensures var e, e' := Get(run.s, x), Get(later.s, x);
            && e'.next == e.next && e'.done == e.done && e'.shared == e.shared
            && (e'.pc.Copying? || (e'.pc.Waiting? && e'.pc.stage == Sampling))
  {
    hide IsRun, CountsOk, PlaceOk, BytesOk, ReceivedOk;
    RunInv(run);
    Pow2Positive(run.s.plan, Get(run.s, x).next);
    hide PlanOk, Prepare, Prepared;
    PreparedOk(run.s, x);
    PreparedAlone(run.s, x);
    later := Extend(run, Prepared(run.s, x), x);
  }

  /** The end of the next message, counted from the lap the side is in. */
  lemma {:induction false} WaitsFor(run: Run<State>, x: Side)
    requires IsRun(run)
    ensures var s, e, o := run.s, Get(run.s, x), Get(run.s, Other(x));
            && PlanOk(s.plan)
            && (e.pc.Waiting? ==> e.next < |s.plan| && e.base + e.pc.end == Abs(At(s.size, s.plan, e.next + 1)))
            && (e.pc.Copying? ==> e.next < |s.plan| && Abs(At(s.size, s.plan, e.next + 1)) <= o.shared + Credit(s, x))
            && e.done <= |s.plan| && e.shared == Abs(At(s.size, s.plan, e.done))
  {
    hide IsRun;
    RunInv(run);
    if Get(run.s, x).pc.Waiting? {
      StepAt(run.s, Get(run.s, x).next);
    }
  }

  /** The space for the next message is there: the side comes to copy. */
  lemma {:induction false} GetsSpace(run: Run<State>, x: Side) returns (later: Run<State>)
    requires IsRun(run) && PlanOk(run.s.plan) && Get(run.s, x).pc == Idle && Get(run.s, x).next < |run.s.plan|
    requires Abs(At(run.s.size, run.s.plan, Get(run.s, x).next + 1)) <= Get(run.s, Other(x)).shared + Credit(run.s, x)
    ensures IsRun(later) && Alone(run.s, later.s, x)
    ensures Get(later.s, x).pc.Copying? && Get(later.s, x).next == Get(run.s, x).next
  {
    hide IsRun, At;
    later := Prepares(run, x);
    if Get(later.s, x).pc.Waiting? {
      WaitsFor(later, x);
      var s, e := later.s, Get(later.s, x);
      var available := Available(s, x, Get(s, Other(x)).shared);
      later := Extend(later, Put(s, x, e.(end := Min(available, s.size), pos := e.pc.end, pc := Copying(e.pc.pos, []))), x);
    }
  }

  lemma {:induction false} CopyBounds(run: Run<State>, x: Side)
    requires IsRun(run) && Get(run.s, x).pc.Copying?
    ensures var s, e := run.s, Get(run.s, x);
            && e.next < |s.plan| && |e.pc.got| <= |s.plan[e.next].bytes|
            && e.pc.pos + |s.plan[e.next].bytes| <= |s.buffer|
  {
    hide IsRun;
    RunInv(run);
  }

  lemma {:induction false} CopiesByte(run: Run<State>, x: Side) returns (later: Run<State>)
    requires IsRun(run) && Get(run.s, x).pc.Copying?
    requires Get(run.s, x).next < |run.s.plan| && |Get(run.s, x).pc.got| < |run.s.plan[Get(run.s, x).next].bytes|
    ensures IsRun(later) && Alone(run.s, later.s, x) && Get(later.s, x).pc.Copying?
    ensures Get(later.s, x).next == Get(run.s, x).next && |Get(later.s, x).pc.got| == |Get(run.s, x).pc.got| + 1
  {
    hide IsRun;
    CopyBounds(run, x);
    var s, e := run.s, Get(run.s, x);
    var at := e.pc.pos + |e.pc.got|;
    if x == Writer {
      var b := s.plan[e.next].bytes[|e.pc.got|];
      later := Extend(run, s.(buffer := s.buffer[at := b], writer := e.(pc := e.pc.(got := e.pc.got + [b]))), x);
    } else {
      later := Extend(run, s.(reader := e.(pc := e.pc.(got := e.pc.got + [s.buffer[at]]))), x);
    }
  }

  /** The rest of the message, byte by byte. */
  lemma {:induction false} Copies(run: Run<State>, x: Side, left: nat) returns (later: Run<State>)
    requires IsRun(run) && Get(run.s, x).pc.Copying? && Get(run.s, x).next < |run.s.plan|
    requires |Get(run.s, x).pc.got| + left == |run.s.plan[Get(run.s, x).next].bytes|
    ensures IsRun(later) && Alone(run.s, later.s, x)
    ensures Get(later.s, x).pc == Idle && Get(later.s, x).next == Get(run.s, x).next + 1
    decreases left
  {
    hide IsRun;
    if left > 0 {
      later := CopiesByte(run, x);
      later := Copies(later, x, left - 1);
    } else {
      var e := Get(run.s, x);
      var t := Put(run.s, x, e.(next := e.next + 1, pc := Idle));
      later := Extend(run, if x == Writer then t else t.(received := t.received + [e.pc.got]), x);
    }
  }

  lemma {:induction false} Publishes(run: Run<State>, x: Side) returns (later: Run<State>)
    requires IsRun(run) && Get(run.s, x).pc == Idle && !Get(run.s, x).shouldSignal
    ensures IsRun(later) && Alone(run.s, later.s, x)
    ensures var e, e' := Get(run.s, x), Get(later.s, x); e'.pc == Idle && e'.next == e'.done == e.next
  {
    hide IsRun;
    var e := Get(run.s, x);
    var stored := e.(shared := e.base + e.pos, done := e.next, pc := Stored);
    later := Extend(run, Put(run.s, x, stored), x);
    later := Extend(later, Put(later.s, x, stored.(pc := Idle)), x);
  }

  /** One message from Prepare to Finish, without waiting. */
  lemma {:induction false} Passes(run: Run<State>, x: Side) returns (later: Run<State>)
    requires IsRun(run) && PlanOk(run.s.plan)
    requires Get(run.s, x).pc == Idle && Get(run.s, x).next < |run.s.plan| && !Get(run.s, x).shouldSignal
    requires Abs(At(run.s.size, run.s.plan, Get(run.s, x).next + 1)) <= Get(run.s, Other(x)).shared + Credit(run.s, x)
    ensures IsRun(later) && Alone(run.s, later.s, x)
    ensures var e, e' := Get(run.s, x), Get(later.s, x); e'.pc == Idle && e'.next == e'.done == e.next + 1
  {
    hide IsRun, At;
    later := GetsSpace(run, x);
    CopyBounds(later, x);
    later := Copies(later, x, |later.s.plan[Get(later.s, x).next].bytes| - |Get(later.s, x).pc.got|);
    later := Publishes(later, x);
  }

  /* ----- a side that does not get its space parks ----- */

  /** The loop once round: sample, request, look again, wait. */
  lemma {:induction false} Waits(run: Run<State>, x: Side) returns (later: Run<State>)
    requires IsRun(run) && Get(run.s, x).pc.Waiting? && Get(run.s, x).pc.stage == Sampling
    requires Available(run.s, x, Get(run.s, Other(x)).shared) < Get(run.s, x).pc.end
    ensures IsRun(later) && later.s.size == run.s.size && later.s.plan == run.s.plan
    ensures var seen := Get(run.s, Other(x)).shared;
            && Get(later.s, x) == Get(run.s, x).(pc := Get(run.s, x).pc.(stage := Parked(seen)))
            && Get(later.s, Other(x)) == Get(run.s, Other(x)).(shouldSignal := true)
  {
    hide IsRun;
    var e, o := Get(run.s, x), Get(run.s, Other(x));
    var seen := o.shared;
    later := Extend(run, Put(run.s, x, e.(pc := e.pc.(stage := Requesting(seen)))), x);
    var up := Put(later.s, Other(x), o.(shouldSignal := true));
    later := Extend(later, Put(up, x, e.(pc := e.pc.(stage := Rechecking(seen)))), x);
    later := Extend(later, Put(later.s, x, e.(pc := e.pc.(stage := Parked(seen)))), x);
  }

  lemma {:induction false} Parks(run: Run<State>, x: Side) returns (later: Run<State>)
    requires IsRun(run) && PlanOk(run.s.plan) && Get(run.s, x).pc == Idle && Get(run.s, x).next < |run.s.plan|
    requires Get(run.s, x).semaphore == 0 && Get(run.s, x).done == Get(run.s, x).next
    requires Abs(At(run.s.size, run.s.plan, Get(run.s, x).next + 1)) > Get(run.s, Other(x)).shared + Credit(run.s, x)
    ensures IsRun(later) && later.s.size == run.s.size && later.s.plan == run.s.plan
    ensures Stuck(Get(later.s, x)) && FinishedEach(Get(later.s, x)) && Get(later.s, x).shared == Get(run.s, x).shared
    ensures Get(later.s, Other(x)) == Get(run.s, Other(x)).(shouldSignal := true)
  {
    hide IsRun, At;
    later := Prepares(run, x);
    WaitsFor(later, x);
    later := Waits(later, x);
  }

  /* ----- message by message ----- */

  /** Both sides have finished `k` messages, and nobody waits or has asked for a signal. */
  predicate Finished(e: End, k: nat) {
    e.pc == Idle && e.next == e.done == k && !e.shouldSignal && e.semaphore == 0
  }

  /** The next message fits when both sides stand after `k` messages. */
  ghost predicate FitsAt(size: nat, plan: seq<Message>, k: nat)
    requires PlanOk(plan) && k < |plan|
  {
    FitsCaughtUp(size, At(size, plan, k).pos, plan[k])
  }

  lemma FitsWithin(size: nat, plan: seq<Message>, k: nat)
    requires PlanOk(plan) && k < |plan|
    ensures FitsAt(size, plan, k) <==> Abs(At(size, plan, k + 1)) <= Abs(At(size, plan, k)) + size
  {
    PastFromBase(size, At(size, plan, k), plan[k]);
  }

  lemma {:induction false} Round(run: Run<State>, k: nat) returns (later: Run<State>)
    requires IsRun(run) && PlanOk(run.s.plan) && k < |run.s.plan| && FitsAt(run.s.size, run.s.plan, k)
    requires Finished(run.s.writer, k) && Finished(run.s.reader, k)
    ensures IsRun(later) && later.s.size == run.s.size && later.s.plan == run.s.plan
    ensures Finished(later.s.writer, k + 1) && Finished(later.s.reader, k + 1)
  {
    hide IsRun, At, FitsAt;
    WaitsFor(run, Reader);
    FitsWithin(run.s.size, run.s.plan, k);
    later := Passes(run, Writer);
    WaitsFor(later, Writer);
    later := Passes(later, Reader);
  }

  lemma {:induction false} Rounds(size: nat, plan: seq<Message>, k: nat) returns (run: Run<State>)
    requires IsPow2(size) && PlanOk(plan) && k <= |plan| && forall j :: 0 <= j < k ==> FitsAt(size, plan, j)
    ensures IsRun(run) && run.s.size == size && run.s.plan == plan
    ensures Finished(run.s.writer, k) && Finished(run.s.reader, k)
    decreases k
  {
    if k == 0 {
      var b: Byte := *;
      run := Start(State(size, plan, seq(size, _ => b), End(0, size, 0, 0, false, 0, Idle, 0, 0),
                         End(0, 0, 0, 0, false, 0, Idle, 0, 0), []));
    } else {
      hide IsRun, FitsAt;
      run := Rounds(size, plan, k - 1);
      run := Round(run, k - 1);
    }
  }

  /* ----- the exact condition ----- */

  /** Writer and reader are parked without a wake-up under way, each message finished before the next. */
  ghost predicate BothParked(s: State) {
    Stuck(s.writer) && Stuck(s.reader) && FinishedEach(s.writer) && FinishedEach(s.reader)
  }

  /** No side has a transition left. */
  ghost predicate NothingLeft(s: State) {
    forall s' :: !Steps(s, s')
  }

  ghost predicate CanDeadlock(size: nat, plan: seq<Message>) {
    exists run :: IsRun(run) && run.s.size == size && run.s.plan == plan && BothParked(run.s) && NothingLeft(run.s)
  }

  lemma ParkedForEver(s: State)
    requires Stuck(s.writer) && Stuck(s.reader)
    ensures NothingLeft(s)
  {
    hide Steps;
    forall s' ensures !Steps(s, s') {
      BothStuckForever(s, s');
    }
  }

  /** At the first message that does not fit both sides park. */
  lemma {:induction false} DeadlockAt(size: nat, plan: seq<Message>, k: nat) returns (run: Run<State>)
    requires IsPow2(size) && PlanOk(plan) && k < |plan| && Regular(plan[k])
    requires !FitsAt(size, plan, k) && forall j :: 0 <= j < k ==> FitsAt(size, plan, j)
    ensures IsRun(run) && run.s.size == size && run.s.plan == plan && BothParked(run.s) && NothingLeft(run.s)
  {
    hide IsRun, At, FitsAt;
    run := Rounds(size, plan, k);
    FitsWithin(size, plan, k);
    WaitsFor(run, Reader);
    WaitsFor(run, Writer);
    run := Parks(run, Writer);
    run := Parks(run, Reader);
    ParkedForEver(run.s);
  }

  lemma {:induction false} FirstUnfit(size: nat, plan: seq<Message>, k: nat) returns (first: nat)
    requires PlanOk(plan) && k < |plan| && !FitsAt(size, plan, k)
    ensures first <= k && !FitsAt(size, plan, first) && forall j :: 0 <= j < first ==> FitsAt(size, plan, j)
    decreases k
  {
    hide FitsAt;
    first := k;
    if j :| 0 <= j < k && !FitsAt(size, plan, j) {
      first := FirstUnfit(size, plan, j);
    }
  }

  /** A message sequence can leave both sides parked for ever if and only if one of its messages does not
      fit at the place where it comes, although everything before it is released. */
  lemma {:induction false} DeadlocksExactly(size: nat, plan: seq<Message>)
    requires IsPow2(size) && PlanOk(plan) && forall k :: 0 <= k < |plan| ==> Regular(plan[k])
    ensures CanDeadlock(size, plan) <==> exists k :: 0 <= k < |plan| && !FitsAt(size, plan, k)
  {
    hide IsRun, Regular, NothingLeft;
    if CanDeadlock(size, plan) {
      var run :| IsRun(run) && run.s.size == size && run.s.plan == plan && BothParked(run.s);
      hide At;
      BothStuck(run);
      WritersPlace(run);
      assert !FitsAt(size, plan, run.s.writer.next);
    }
    if k :| 0 <= k < |plan| && !FitsAt(size, plan, k) {
      var first := FirstUnfit(size, plan, k);
      var run := DeadlockAt(size, plan, first);
      assert CanDeadlock(size, plan);
    }
  }

  lemma {:induction false} WritersPlace(run: Run<State>)
    requires IsRun(run) && run.s.writer.pc.Waiting?
    ensures PlanOk(run.s.plan) && run.s.writer.next < |run.s.plan|
    ensures run.s.writer.pos == At(run.s.size, run.s.plan, run.s.writer.next).pos
  {
    hide IsRun;
    RunInv(run);
  }

  /* ----- the bound on the size of messages ----- */

  ghost predicate Modest(plan: seq<Message>, most: nat) {
    PlanOk(plan) && forall k :: 0 <= k < |plan| ==> Regular(plan[k]) && |plan[k].bytes| <= most
  }

  /** A message of one byte less than `most`, then one of `most`, which is more than half the buffer. */
  lemma SecondUnfit(size: nat, plan: seq<Message>, most: nat)
    requires PlanOk(plan) && |plan| == 2 && plan[0].alignment == plan[1].alignment == 1
    requires |plan[0].bytes| == most - 1 && |plan[1].bytes| == most && size % 2 == 0 && size < 2 * most <= 2 * size
    ensures !FitsAt(size, plan, 1)
  {
    AlignUpOne(0);
    AlignUpOne(most - 1);
    hide AlignUp;
    AtZero(size, plan, 0);
    assert At(size, plan, 1) == Past(size, At(size, plan, 0), plan[0]) == Cursor(0, most - 1);
    hide At;
  }

  /** A message longer than the buffer. */
  lemma FirstUnfits(size: nat, plan: seq<Message>)
    requires PlanOk(plan) && plan != [] && plan[0].alignment == 1 && |plan[0].bytes| > size
    ensures !FitsAt(size, plan, 0)
  {
    AlignUpOne(0);
    hide AlignUp;
    AtZero(size, plan, 0);
    hide At;
  }

  lemma BytesAreModest(plan: seq<Message>, most: nat)
    requires forall k :: 0 <= k < |plan| ==> plan[k].alignment == 1 && 0 < |plan[k].bytes| <= most
    ensures Modest(plan, most)
  {
    assert IsPow2(1) by { assert Pow2(0) == 1; }
    hide IsPow2;
  }

  lemma MoreThanHalfDeadlocks(size: nat, most: nat) returns (plan: seq<Message>)
    requires IsPow2(size) && 1 < most && size < 2 * most
    ensures Modest(plan, most) && CanDeadlock(size, plan)
  {
    hide CanDeadlock, FitsAt, Modest;
    var b: Byte := *;
    var k;
    if most <= size {
      PowerEven(size);
      k, plan := 1, [Message(1, seq(most - 1, _ => b)), Message(1, seq(most, _ => b))];
      BytesAreModest(plan, most);
      ModestPlan(plan, most);
      SecondUnfit(size, plan, most);
    } else {
      k, plan := 0, [Message(1, seq(most, _ => b))];
      BytesAreModest(plan, most);
      ModestPlan(plan, most);
      FirstUnfits(size, plan);
    }
    DeadlocksExactly(size, plan);
  }

  lemma AlignUpOne(pos: nat)
    ensures AlignUp(pos, 1) == pos
  {
  }

  lemma PowerEven(size: nat)
    requires IsPow2(size)
    ensures size >= 1 && (size > 1 ==> size % 2 == 0)
  {
    var k: nat :| size == Pow2(k);
  }

  /** Half the buffer is exact: messages of at most `most` bytes can deadlock if and only if `most` is more
      than half the buffer; but for messages of one byte, which always fit. */
  lemma HalfIsExact(size: nat, most: nat)
    requires IsPow2(size)
    ensures (exists plan :: Modest(plan, most) && CanDeadlock(size, plan)) <==> 1 < most && size < 2 * most
  {
    if 1 < most && size < 2 * most {
      var plan := MoreThanHalfDeadlocks(size, most);
    } else {
      forall plan | Modest(plan, most) ensures !CanDeadlock(size, plan) {
        SmallNeverDeadlocks(size, plan, most);
      }
    }
  }

  lemma OneByteFits(pos: nat, m: Message)
    requires Regular(m) && |m.bytes| == 1 && pos <= 1
    ensures FitsCaughtUp(1, pos, m)
  {
    assert m.alignment == 1;
    AlignUpOne(pos);
    hide AlignUp;
  }

  lemma ModestFit(size: nat, plan: seq<Message>, most: nat, k: nat)
    requires most <= size && Modest(plan, most) && k < |plan|
    ensures PlanOk(plan) && Regular(plan[k]) && |plan[k].bytes| <= most && Fit(size, plan, k)
  {
    hide Regular, PlanOk;
  }

  lemma SmallFits(size: nat, plan: seq<Message>, most: nat, k: nat)
    requires IsPow2(size) && (most <= 1 || 2 * most <= size) && Modest(plan, most) && k < |plan|
    ensures PlanOk(plan) && FitsAt(size, plan, k)
  {
    PowerEven(size);
    hide At, Modest, AlignUp;
    ModestFit(size, plan, most, k);
    AtBounds(size, plan, k);
    if 2 * most <= size {
      HalfFits(size, At(size, plan, k).pos, plan[k]);
    } else {
      OneByteFits(At(size, plan, k).pos, plan[k]);
    }
  }

  lemma SmallNeverDeadlocks(size: nat, plan: seq<Message>, most: nat)
    requires IsPow2(size) && (most <= 1 || 2 * most <= size) && Modest(plan, most)
    ensures !CanDeadlock(size, plan)
  {
    hide CanDeadlock, FitsAt, Modest, Regular, IsPow2;
    ModestPlan(plan, most);
    forall k | 0 <= k < |plan| ensures FitsAt(size, plan, k) {
      SmallFits(size, plan, most, k);
    }
    DeadlocksExactly(size, plan);
  }

  lemma ModestPlan(plan: seq<Message>, most: nat)
    requires Modest(plan, most)
    ensures PlanOk(plan) && forall k :: 0 <= k < |plan| ==> Regular(plan[k])
  {
  }
}

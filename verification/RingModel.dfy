/** The single-producer single-consumer ring buffer, version 2, as a transition system with one
    transition for each atomic access.  Writer and reader run the same code; the writer is one lap
    of credit ahead, so a transition names the side that moves.  `plan` is the message sequence
    both sides agree on: "size and alignment should match written data". */
module RingModel {
  import opened Runs
  import opened Bits

  type Byte(==, !new, 0)

  datatype Message = Message(alignment: nat, bytes: seq<Byte>)

  datatype Side = Writer | Reader

  /** The stages of the loop in `GetBufferSpaceToWriteTo` and `...ReadFrom`; `seen` is the sampled
      position of the other side. */
  datatype Wait = Sampling | Requesting(seen: nat) | Rechecking(seen: nat) | Cancelling(seen: nat) | Parked(seen: nat)

  datatype PC =
    | Idle
    | Waiting(pos: nat, end: nat, stage: Wait)
    | Copying(pos: nat, got: seq<Byte>)       // the bytes written, or read, so far
    | Stored                                  // position published, flag not yet exchanged
    | Signalling

  /** LocalState and SharedState of one side.  `next` counts the messages prepared and copied, and
      `done` those published; both are history. */
  datatype End = End(pos: nat, end: nat, base: nat, shared: nat, shouldSignal: bool, semaphore: nat,
                     pc: PC, next: nat, done: nat)

  datatype State = State(size: nat, plan: seq<Message>, buffer: seq<Byte>, writer: End, reader: End,
                         received: seq<seq<Byte>>)

  ghost predicate PlanOk(plan: seq<Message>) {
    forall k :: 0 <= k < |plan| ==> IsPow2(plan[k].alignment)
  }

  ghost predicate Init(s: State) {
    && IsPow2(s.size) && |s.buffer| == s.size && PlanOk(s.plan) && s.received == []
    && s.writer == End(0, s.size, 0, 0, false, 0, Idle, 0, 0)
    && s.reader == End(0, 0, 0, 0, false, 0, Idle, 0, 0)
  }

  function Other(x: Side): Side {
    if x == Writer then Reader else Writer
  }

  function Get(s: State, x: Side): End {
    if x == Writer then s.writer else s.reader
  }

  function Put(s: State, x: Side, e: End): State {
    if x == Writer then s.(writer := e) else s.(reader := e)
  }

  /** How far this side may be ahead of the other's published position. */
  function Credit(s: State, x: Side): nat {
    if x == Writer then s.size else 0
  }

  function Min(a: int, b: int): int {
    if a <= b then a else b
  }

  /** Free or readable bytes, counted from this side's lap; negative when the other is behind it. */
  function Available(s: State, x: Side, seen: nat): int {
    seen - Get(s, x).base + Credit(s, x)
  }

  /** PrepareWrite, PrepareRead: align, and go on at once when the cached limit allows. */
  ghost predicate Prepare(s: State, s': State, x: Side) {
    var e := Get(s, x);
    && e.pc == Idle && e.next < |s.plan|
    && var m := s.plan[e.next];
    && m.alignment >= 1
    && var pos := AlignUp(e.pos, m.alignment);
       var end := pos + |m.bytes|;
       if end <= e.end then
         s' == Put(s, x, e.(pos := end, pc := Copying(pos, [])))
       else if end <= s.size then
         s' == Put(s, x, e.(pc := Waiting(pos, end, Sampling)))
       else
         s' == Put(s, x, e.(base := e.base + s.size, pc := Waiting(0, end - pos, Sampling)))
  }

  ghost predicate Sample(s: State, s': State, x: Side) {
    var e := Get(s, x);
    && e.pc.Waiting? && e.pc.stage == Sampling
    && var seen := Get(s, Other(x)).shared;
       var available := Available(s, x, seen);
       if available >= e.pc.end then
         s' == Put(s, x, e.(end := Min(available, s.size), pos := e.pc.end, pc := Copying(e.pc.pos, [])))
       else
         s' == Put(s, x, e.(pc := e.pc.(stage := Requesting(seen))))
  }

  ghost predicate Request(s: State, s': State, x: Side) {
    var e, o := Get(s, x), Get(s, Other(x));
    && e.pc.Waiting? && e.pc.stage.Requesting?
    && s' == Put(Put(s, Other(x), o.(shouldSignal := true)),
                 x, e.(pc := e.pc.(stage := Rechecking(e.pc.stage.seen))))
  }

  ghost predicate Recheck(s: State, s': State, x: Side) {
    var e, o := Get(s, x), Get(s, Other(x));
    && e.pc.Waiting? && e.pc.stage.Rechecking?
    && var seen := e.pc.stage.seen;
       s' == Put(s, x, e.(pc := e.pc.(stage := if o.shared != seen then Cancelling(seen) else Parked(seen))))
  }

  ghost predicate Cancel(s: State, s': State, x: Side) {
    var e, o := Get(s, x), Get(s, Other(x));
    && e.pc.Waiting? && e.pc.stage.Cancelling?
    && s' == Put(Put(s, Other(x), o.(shouldSignal := false)),
                 x, e.(pc := e.pc.(stage := if o.shouldSignal then Sampling else Parked(e.pc.stage.seen))))
  }

  ghost predicate Wake(s: State, s': State, x: Side) {
    var e := Get(s, x);
    && e.pc.Waiting? && e.pc.stage.Parked? && e.semaphore > 0
    && s' == Put(s, x, e.(semaphore := e.semaphore - 1, pc := e.pc.(stage := Sampling)))
  }

  /** One byte of the message, written into or read from the buffer. */
  ghost predicate CopyByte(s: State, s': State, x: Side) {
    var e := Get(s, x);
    && e.pc.Copying? && e.next < |s.plan| && |e.pc.got| < |s.plan[e.next].bytes|
    && var at := e.pc.pos + |e.pc.got|;
    && at < |s.buffer|
    && if x == Writer then
         var b := s.plan[e.next].bytes[|e.pc.got|];
         s' == s.(buffer := s.buffer[at := b], writer := e.(pc := e.pc.(got := e.pc.got + [b])))
       else
         s' == s.(reader := e.(pc := e.pc.(got := e.pc.got + [s.buffer[at]])))
  }

  ghost predicate EndCopy(s: State, s': State, x: Side) {
    var e := Get(s, x);
    && e.pc.Copying? && e.next < |s.plan| && |e.pc.got| == |s.plan[e.next].bytes|
    && var t := Put(s, x, e.(next := e.next + 1, pc := Idle));
       s' == if x == Writer then t else t.(received := t.received + [e.pc.got])
  }

  /** FinishWrite, FinishRead: publish everything copied so far. */
  ghost predicate Store(s: State, s': State, x: Side) {
    var e := Get(s, x);
    && e.pc == Idle
    && s' == Put(s, x, e.(shared := e.base + e.pos, done := e.next, pc := Stored))
  }

  ghost predicate Exchange(s: State, s': State, x: Side) {
    var e := Get(s, x);
    && e.pc == Stored
    && s' == Put(s, x, e.(shouldSignal := false, pc := if e.shouldSignal then Signalling else Idle))
  }

  ghost predicate Signal(s: State, s': State, x: Side) {
    var e, o := Get(s, x), Get(s, Other(x));
    && e.pc == Signalling
    && s' == Put(Put(s, Other(x), o.(semaphore := o.semaphore + 1)), x, e.(pc := Idle))
  }

  /** Transitions on positions and bytes; version 1 has these, with Store ending in Idle. */
  ghost predicate DataNext(s: State, s': State, x: Side) {
    Prepare(s, s', x) || Sample(s, s', x) || CopyByte(s, s', x) || EndCopy(s, s', x) || Store(s, s', x)
  }

  /** Transitions of the sleep and wake handshake. */
  ghost predicate SignalNext(s: State, s': State, x: Side) {
    || Request(s, s', x) || Recheck(s, s', x) || Cancel(s, s', x) || Wake(s, s', x)
    || Exchange(s, s', x) || Signal(s, s', x)
  }

  ghost predicate Next(s: State, s': State, x: Side) {
    DataNext(s, s', x) || SignalNext(s, s', x)
  }

  ghost predicate Steps(s: State, s': State) {
    Next(s, s', Writer) || Next(s, s', Reader)
  }

  ghost predicate IsRun(run: Run<State>)
    decreases run, 0
  {
    match run
    case Start(s) => Init(s)
    case Then(before, s) => Extends(before, s)
  }

  /** One more transition at the end of a run. */
  ghost predicate Extends(before: Run<State>, s: State)
    decreases before, 1
  {
    IsRun(before) && Steps(before.s, s)
  }
}

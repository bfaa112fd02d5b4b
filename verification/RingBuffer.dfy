/** The code of the ring buffer, run by one side while the other side interferes.  Every atomic access
    is a step of the transition system, so each execution of these methods is a run of it. */
module RingBuffer {
  import opened Runs
  import opened Bits
  import opened RingModel
  import opened RingInvariant
  import opened RingTheorems

  /** `later` continues `run` with steps of the side other than `x`. */
  ghost predicate Others(run: Run<State>, later: Run<State>, x: Side) {
    later == run || (later.Then? && Others(run, later.before, x) && Next(later.before.s, later.s, Other(x)))
  }

  /** Publications and signals of the other side: what can make a waiting side try again. */
  ghost function Wakeups(run: Run<State>, later: Run<State>, x: Side): nat {
    if later == run || later.Start? then 0
    else
      Wakeups(run, later.before, x)
      + if Store(later.before.s, later.s, Other(x)) || Signal(later.before.s, later.s, Other(x)) then 1 else 0
  }

  /** What side `x` can rely on: only its flag and its semaphore are touched by the other side. */
  predicate Mine(s: State, s': State, x: Side) {
    && s'.size == s.size && s'.plan == s.plan
    && Get(s', x) == Get(s, x).(shouldSignal := Get(s', x).shouldSignal, semaphore := Get(s', x).semaphore)
    && (x == Reader ==> s'.received == s.received)
  }

  lemma MineNext(s: State, s': State, x: Side)
    requires Next(s, s', Other(x))
    ensures Mine(s, s', x)
    ensures ActOf(s, s', x) == []
    ensures !Store(s, s', Other(x)) ==> Get(s', Other(x)).shared == Get(s, Other(x)).shared
    ensures !Signal(s, s', Other(x)) ==> Get(s', x).semaphore == Get(s, x).semaphore
  {
    if DataNext(s, s', Other(x)) {
    } else {
    }
  }

  /** What a side has done so far: messages copied, and what it did to publish them. */
  datatype Act = Copied(bytes: seq<Byte>) | Published(pos: nat) | TookFlag(raised: bool) | Signalled

  function ActOf(s: State, s': State, x: Side): seq<Act> {
    match (Get(s, x).pc, Get(s', x).pc)
    case (Copying(_, got), Idle) => [Copied(got)]
    case (Idle, Stored) => [Published(Get(s', x).shared)]
    case (Stored, Signalling) => [TookFlag(true)]
    case (Stored, Idle) => [TookFlag(false)]
    case (Signalling, Idle) => [Signalled]
    case _ => []
  }

  function Acts(run: Run<State>, x: Side): seq<Act> {
    match run
    case Start(_) => []
    case Then(before, s) => Acts(before, x) + ActOf(before.s, s, x)
  }

  lemma {:induction false} OthersKeepMine(run: Run<State>, later: Run<State>, x: Side)
    requires IsRun(run) && Others(run, later, x)
    ensures IsRun(later) && Mine(run.s, later.s, x) && Acts(later, x) == Acts(run, x)
    ensures Wakeups(run, later, x) == 0 ==>
              && Get(later.s, Other(x)).shared == Get(run.s, Other(x)).shared
              && Get(later.s, x).semaphore == Get(run.s, x).semaphore
    decreases later
  {
    if later != run {
      OthersKeepMine(run, later.before, x);
      MineNext(later.before.s, later.s, x);
    }
  }

  lemma {:induction false} RunPlan(run: Run<State>, x: Side)
    requires IsRun(run)
    ensures PlanOk(run.s.plan) && |run.s.buffer| == run.s.size
    ensures var e := Get(run.s, x);
            && HandshakeOk(run.s, x)
            && (e.pc.Copying? ==> e.next < |run.s.plan| && |e.pc.got| <= |run.s.plan[e.next].bytes|
                                  && e.pc.pos + |run.s.plan[e.next].bytes| <= run.s.size)
  {
    hide IsRun;
    RunInv(run);
    Handshake(run, x);
  }

  /** LocalState and SharedState of one side. */
  class Endpoint {
    var pos: nat
    var end: nat
    var base: nat
    var shared: nat
    var shouldSignal: bool
    var semaphore: nat

    constructor (end: nat)
      ensures this.end == end && pos == base == shared == semaphore == 0 && !shouldSignal
    {
      pos, this.end, base, shared, shouldSignal, semaphore := 0, end, 0, 0, false, 0;
    }

    ghost predicate Is(e: End)
      reads this
    {
      && e.pos == pos && e.end == end && e.base == base
      && e.shared == shared && e.shouldSignal == shouldSignal && e.semaphore == semaphore
    }
  }

  class RingBuffer {
    const size: nat
    const buffer: array<Byte>
    const writer: Endpoint
    const reader: Endpoint
    ghost var run: Run<State>
    ghost var budget: nat                  // publications and signals the other side still makes

    ghost predicate Valid()
      reads this, buffer, writer, reader
    {
      && IsRun(run) && writer != reader
      && run.s.size == size && run.s.buffer == buffer[..]
      && writer.Is(run.s.writer) && reader.Is(run.s.reader)
    }

    /** Side `x` is at `pc` with `next` messages done. */
    ghost predicate Ready(x: Side, pc: PC, next: nat)
      reads this, buffer, writer, reader
    {
      Valid() && Get(run.s, x).pc == pc && Get(run.s, x).next == next
    }

    /** What side `x` has done so far. */
    ghost function Did(x: Side): seq<Act>
      reads this`run
    {
      Acts(run, x)
    }

    /** Message `next` has this alignment and length: "size and alignment should match written data". */
    ghost predicate Matches(next: nat, alignment: nat, length: nat)
      reads this
    {
      next < |run.s.plan| && run.s.plan[next].alignment == alignment && |run.s.plan[next].bytes| == length
    }

    function Local(x: Side): Endpoint {
      if x == Writer then writer else reader
    }

    /** `Initialize`. */
    constructor (buffer: array<Byte>, ghost plan: seq<Message>, ghost budget: nat)
      requires IsPow2(buffer.Length) && PlanOk(plan)
      ensures Ready(Writer, Idle, 0) && run.s.reader.pc == Idle && run.s.reader.next == 0
      ensures this.buffer == buffer && run.s.plan == plan && fresh(writer) && fresh(reader)
      ensures writer.end == buffer.Length && reader.end == 0 && run.Start? && this.budget == budget
    {
      size := buffer.Length;
      this.buffer := buffer;
      writer := new Endpoint(buffer.Length);
      reader := new Endpoint(0);
      run := Start(State(buffer.Length, plan, buffer[..], End(0, buffer.Length, 0, 0, false, 0, Idle, 0, 0),
                         End(0, 0, 0, 0, false, 0, Idle, 0, 0), []));
      this.budget := budget;
    }

    ghost method Commit(x: Side, s': State)
      requires IsRun(run) && Next(run.s, s', x)
      modifies this`run
      ensures IsRun(run) && run.s == s'
      ensures forall r :: Continues(r, old(run)) ==> Continues(r, run)
      ensures Did(x) == old(Did(x)) + ActOf(old(run.s), s', x)
    {
      run := Then(run, s');
    }

    /** The other side runs for any finite number of steps. */
    method Interfere(ghost x: Side, ghost pc: PC, ghost next: nat)
      requires Ready(x, pc, next)
      modifies this, buffer, writer, reader
      ensures Ready(x, pc, next) && run.s.plan == old(run.s.plan) && Others(old(run), run, x)
      ensures budget <= old(budget) && budget + Wakeups(old(run), run, x) <= old(budget)
      ensures forall r :: Continues(r, old(run)) ==> Continues(r, run)
      ensures Did(x) == old(Did(x))
      ensures budget == old(budget) ==>
                Local(Other(x)).shared == old(Local(Other(x)).shared) && Local(x).semaphore == old(Local(x).semaphore)
      ensures x == Reader ==> run.s.received == old(run.s.received)
      ensures Get(run.s, x).done == old(Get(run.s, x).done) && Local(x).shared == old(Local(x).shared)
      ensures Local(x).pos == old(Local(x).pos) && Local(x).end == old(Local(x).end) && Local(x).base == old(Local(x).base)
    {
      OthersKeepMine(run, run, x);
    }

    /* ----- the atomic accesses of GetBufferSpaceToWriteTo and GetBufferSpaceToReadFrom ----- */

    method StartWait(x: Side, alignment: nat, length: nat, pos: nat, ghost next: nat) returns (pos': nat, end: nat)
      requires Ready(x, Idle, next) && Matches(next, alignment, length) && alignment >= 1
      requires pos == AlignUp(Local(x).pos, alignment) && pos + length > Local(x).end
      modifies this`run, Local(x)
      ensures Ready(x, Waiting(pos', end, Sampling), next) && run.s.plan == old(run.s.plan)
      ensures forall r :: Continues(r, old(run)) ==> Continues(r, run)
      ensures Did(x) == old(Did(x))
    {
      hide AlignUp, IsRun;
      ghost var s, e := run.s, Get(run.s, x);
      pos', end := pos, pos + length;
      if end > size {
        end := end - pos;
        pos' := 0;
        Local(x).base := Local(x).base + size;
      }
      Commit(x, Put(s, x, e.(base := Local(x).base, pc := Waiting(pos', end, Sampling))));
    }

    method TrySample(x: Side, pos: nat, end: nat, ghost next: nat) returns (ok: bool, seen: nat)
      requires Ready(x, Waiting(pos, end, Sampling), next)
      modifies this`run, Local(x)
      ensures Ready(x, if ok then Copying(pos, []) else Waiting(pos, end, Requesting(seen)), next)
      ensures run.s.plan == old(run.s.plan) && seen == Local(Other(x)).shared == old(Local(Other(x)).shared)
      ensures budget == old(budget) && Local(x).semaphore == 0
      ensures forall r :: Continues(r, old(run)) ==> Continues(r, run)
      ensures Did(x) == old(Did(x))
    {
      RunPlan(run, x);
      ghost var s, e := run.s, Get(run.s, x);
      seen := Local(Other(x)).shared;
      var available := seen - Local(x).base + if x == Writer then size else 0;
      ok := available >= end;
      if ok {
        Local(x).end := Min(available, size);
        Local(x).pos := end;
        Commit(x, Put(s, x, e.(end := Min(available, size), pos := end, pc := Copying(pos, []))));
      } else {
        Commit(x, Put(s, x, e.(pc := e.pc.(stage := Requesting(seen)))));
      }
    }

    method RequestSignal(x: Side, ghost pos: nat, ghost end: nat, ghost seen: nat, ghost next: nat)
      requires Ready(x, Waiting(pos, end, Requesting(seen)), next)
      modifies this`run, Local(Other(x))`shouldSignal
      ensures Ready(x, Waiting(pos, end, Rechecking(seen)), next) && run.s.plan == old(run.s.plan)
      ensures forall r :: Continues(r, old(run)) ==> Continues(r, run)
      ensures Did(x) == old(Did(x))
    {
      ghost var s, e := run.s, Get(run.s, x);
      Local(Other(x)).shouldSignal := true;
      Commit(x, Put(Put(s, Other(x), Get(s, Other(x)).(shouldSignal := true)),
                    x, e.(pc := e.pc.(stage := Rechecking(seen)))));
    }

    method RecheckPosition(x: Side, ghost pos: nat, ghost end: nat, seen: nat, ghost next: nat) returns (changed: bool)
      requires Ready(x, Waiting(pos, end, Rechecking(seen)), next)
      modifies this`run
      ensures Ready(x, Waiting(pos, end, if changed then Cancelling(seen) else Parked(seen)), next)
      ensures changed <==> Local(Other(x)).shared != seen
      ensures run.s.plan == old(run.s.plan)
      ensures forall r :: Continues(r, old(run)) ==> Continues(r, run)
      ensures Did(x) == old(Did(x))
    {
      ghost var s, e := run.s, Get(run.s, x);
      changed := Local(Other(x)).shared != seen;
      Commit(x, Put(s, x, e.(pc := e.pc.(stage := if changed then Cancelling(seen) else Parked(seen)))));
    }

    method CancelRequest(x: Side, ghost pos: nat, ghost end: nat, ghost seen: nat, ghost next: nat) returns (cancelled: bool)
      requires Ready(x, Waiting(pos, end, Cancelling(seen)), next)
      modifies this`run, Local(Other(x))`shouldSignal
      ensures Ready(x, Waiting(pos, end, if cancelled then Sampling else Parked(seen)), next)
      ensures run.s.plan == old(run.s.plan)
      ensures forall r :: Continues(r, old(run)) ==> Continues(r, run)
      ensures Did(x) == old(Did(x))
    {
      ghost var s, e := run.s, Get(run.s, x);
      cancelled := Local(Other(x)).shouldSignal;
      Local(Other(x)).shouldSignal := false;
      Commit(x, Put(Put(s, Other(x), Get(s, Other(x)).(shouldSignal := false)),
                    x, e.(pc := e.pc.(stage := if cancelled then Sampling else Parked(seen)))));
    }

    /** `semaphore.wait()` when a token is there; otherwise the thread stays parked. */
    method TakeToken(x: Side, ghost pos: nat, ghost end: nat, ghost seen: nat, ghost next: nat) returns (awake: bool)
      requires Ready(x, Waiting(pos, end, Parked(seen)), next)
      modifies this`run, Local(x)`semaphore
      ensures Ready(x, Waiting(pos, end, if awake then Sampling else Parked(seen)), next)
      ensures (awake <==> old(Local(x).semaphore) > 0) && (!awake ==> Local(x).semaphore == 0)
      ensures run.s.plan == old(run.s.plan)
      ensures forall r :: Continues(r, old(run)) ==> Continues(r, run)
      ensures Did(x) == old(Did(x))
    {
      ghost var s, e := run.s, Get(run.s, x);
      awake := Local(x).semaphore > 0;
      if awake {
        Local(x).semaphore := Local(x).semaphore - 1;
        Commit(x, Put(s, x, e.(semaphore := e.semaphore - 1, pc := e.pc.(stage := Sampling))));
      }
    }

    /* ----- GetBufferSpaceToWriteTo, GetBufferSpaceToReadFrom ----- */

    /** Request a signal, look again, then cancel or wait. */
    method Sleep(x: Side, ghost pos: nat, ghost end: nat, seen: nat, ghost next: nat) returns (parked: bool)
      requires Ready(x, Waiting(pos, end, Requesting(seen)), next)
      requires seen == Local(Other(x)).shared && Local(x).semaphore == 0
      modifies this, buffer, writer, reader
      ensures !parked ==> Ready(x, Waiting(pos, end, Sampling), next) && budget < old(budget)
      ensures budget <= old(budget)
      ensures parked ==> Ready(x, Waiting(pos, end, Parked(seen)), next) && Local(x).semaphore == 0
      ensures run.s.plan == old(run.s.plan)
      ensures forall r :: Continues(r, old(run)) ==> Continues(r, run)
      ensures Did(x) == old(Did(x))
    {
      hide IsRun, Others, Wakeups, Continues;
      var cancelled := Ask(x, pos, end, seen, next);
      if cancelled {
        return false;
      }
      Interfere(x, Waiting(pos, end, Parked(seen)), next);
      var awake := TakeToken(x, pos, end, seen, next);
      parked := !awake;
    }

    method Ask(x: Side, ghost pos: nat, ghost end: nat, seen: nat, ghost next: nat) returns (cancelled: bool)
      requires Ready(x, Waiting(pos, end, Requesting(seen)), next)
      requires seen == Local(Other(x)).shared && Local(x).semaphore == 0
      modifies this, buffer, writer, reader
      ensures Ready(x, Waiting(pos, end, if cancelled then Sampling else Parked(seen)), next)
      ensures budget <= old(budget) && (cancelled ==> budget < old(budget))
      ensures !cancelled && budget == old(budget) ==> Local(x).semaphore == 0
      ensures run.s.plan == old(run.s.plan)
      ensures forall r :: Continues(r, old(run)) ==> Continues(r, run)
      ensures Did(x) == old(Did(x))
    {
      hide IsRun, Others, Wakeups, Continues;
      Interfere(x, Waiting(pos, end, Requesting(seen)), next);
      RequestSignal(x, pos, end, seen, next);
      Interfere(x, Waiting(pos, end, Rechecking(seen)), next);
      var changed := RecheckPosition(x, pos, end, seen, next);
      cancelled := false;
      if changed {
        Interfere(x, Waiting(pos, end, Cancelling(seen)), next);
        cancelled := CancelRequest(x, pos, end, seen, next);
      }
    }

    /** The wait loop.  It goes round again only after the other side has published or signalled; with
        no token to take it returns with the side parked. */
    method GetBufferSpace(x: Side, pos: nat, end: nat, ghost next: nat) returns (parked: bool)
      requires Ready(x, Waiting(pos, end, Sampling), next)
      modifies this, buffer, writer, reader
      ensures !parked ==> Ready(x, Copying(pos, []), next)
      ensures parked ==> Local(x).semaphore == 0 && exists seen :: Ready(x, Waiting(pos, end, Parked(seen)), next)
      ensures run.s.plan == old(run.s.plan)
      ensures forall r :: Continues(r, old(run)) ==> Continues(r, run)
      ensures Did(x) == old(Did(x))
    {
      hide IsRun, Others, Wakeups, Continues, Ready;
      var done := false;
      parked := false;
      while !done && !parked
        invariant !done && !parked ==> Ready(x, Waiting(pos, end, Sampling), next)
        invariant done ==> !parked && Ready(x, Copying(pos, []), next)
        invariant parked ==> Local(x).semaphore == 0 && exists seen :: Ready(x, Waiting(pos, end, Parked(seen)), next)
        invariant run.s.plan == old(run.s.plan)
        invariant forall r :: Continues(r, old(run)) ==> Continues(r, run)
        invariant Did(x) == old(Did(x))
        decreases budget, !done && !parked
      {
        Interfere(x, Waiting(pos, end, Sampling), next);
        var seen;
        done, seen := TrySample(x, pos, end, next);
        if !done {
          parked := Sleep(x, pos, end, seen, next);
        }
      }
    }

    /** A parked side goes on in the wait loop once there is a token for it. */
    method Resume(x: Side, pos: nat, end: nat, ghost seen: nat, ghost next: nat) returns (parked: bool)
      requires Ready(x, Waiting(pos, end, Parked(seen)), next)
      modifies this, buffer, writer, reader
      ensures !parked ==> Ready(x, Copying(pos, []), next)
      ensures parked ==> Local(x).semaphore == 0 && exists again :: Ready(x, Waiting(pos, end, Parked(again)), next)
      ensures run.s.plan == old(run.s.plan)
      ensures forall r :: Continues(r, old(run)) ==> Continues(r, run)
      ensures Did(x) == old(Did(x))
    {
      hide IsRun, Others, Wakeups, Continues, Ready;
      Interfere(x, Waiting(pos, end, Parked(seen)), next);
      var awake := TakeToken(x, pos, end, seen, next);
      parked := !awake;
      if awake {
        parked := GetBufferSpace(x, pos, end, next);
      }
    }

    /* ----- PrepareWrite, PrepareRead ----- */

    method TakeFast(x: Side, alignment: nat, length: nat, pos: nat, ghost next: nat)
      requires Ready(x, Idle, next) && Matches(next, alignment, length) && alignment >= 1
      requires pos == AlignUp(Local(x).pos, alignment) && pos + length <= Local(x).end
      modifies this`run, Local(x)
      ensures Ready(x, Copying(pos, []), next) && run.s.plan == old(run.s.plan)
      ensures forall r :: Continues(r, old(run)) ==> Continues(r, run)
      ensures Did(x) == old(Did(x))
    {
      hide AlignUp, IsRun;
      ghost var s, e := run.s, Get(run.s, x);
      Local(x).pos := pos + length;
      Commit(x, Put(s, x, e.(pos := Local(x).pos, pc := Copying(pos, []))));
    }

    /** Align, and go on at once within the cached limit or else wait for the other side. */
    method Prepare(x: Side, alignment: nat, length: nat, ghost next: nat) returns (pos: nat, parked: bool)
      requires Ready(x, Idle, next) && Matches(next, alignment, length)
      modifies this, buffer, writer, reader
      ensures !parked ==> Ready(x, Copying(pos, []), next)
      ensures parked ==> Local(x).semaphore == 0 && exists end, seen :: Ready(x, Waiting(pos, end, Parked(seen)), next)
      ensures run.s.plan == old(run.s.plan)
      ensures forall r :: Continues(r, old(run)) ==> Continues(r, run)
      ensures Did(x) == old(Did(x))
    {
      hide IsRun, Others, Wakeups, Continues, AlignUp;
      RunPlan(run, x);
      pos := AlignUp(Local(x).pos, alignment);
      parked := false;
      if pos + length > Local(x).end {
        var end;
        pos, end := StartWait(x, alignment, length, pos, next);
        parked := GetBufferSpace(x, pos, end, next);
      } else {
        TakeFast(x, alignment, length, pos, next);
      }
    }

    /* ----- the copies: `new (dest) T(value)`, and the reader's use of the returned pointer ----- */

    method PutByte(m: Message, pos: nat, i: nat, ghost next: nat)
      requires i < |m.bytes|
      requires Ready(Writer, Copying(pos, m.bytes[..i]), next) && next < |run.s.plan| && run.s.plan[next] == m
      modifies this`run, buffer
      ensures Ready(Writer, Copying(pos, m.bytes[..i + 1]), next) && run.s.plan == old(run.s.plan)
      ensures forall r :: Continues(r, old(run)) ==> Continues(r, run)
      ensures Did(Writer) == old(Did(Writer))
    {
      hide IsRun, HandshakeOk;
      RunPlan(run, Writer);
      ghost var s := run.s;
      buffer[pos + i] := m.bytes[i];
      assert m.bytes[..i + 1] == m.bytes[..i] + [m.bytes[i]];
      Commit(Writer, s.(buffer := s.buffer[pos + i := m.bytes[i]],
                        writer := s.writer.(pc := Copying(pos, m.bytes[..i + 1]))));
    }

    method TakeByte(pos: nat, ghost length: nat, got: seq<Byte>, ghost next: nat) returns (b: Byte)
      requires Ready(Reader, Copying(pos, got), next) && next < |run.s.plan| && |run.s.plan[next].bytes| == length
      requires |got| < length
      modifies this`run
      ensures Ready(Reader, Copying(pos, got + [b]), next) && run.s.plan == old(run.s.plan)
      ensures run.s.received == old(run.s.received)
      ensures forall r :: Continues(r, old(run)) ==> Continues(r, run)
      ensures Did(Reader) == old(Did(Reader))
    {
      hide IsRun, HandshakeOk;
      RunPlan(run, Reader);
      b := buffer[pos + |got|];
      Commit(Reader, run.s.(reader := run.s.reader.(pc := Copying(pos, got + [b]))));
    }

    ghost method LeaveCopy(x: Side, pos: nat, got: seq<Byte>, next: nat)
      requires Ready(x, Copying(pos, got), next) && next < |run.s.plan| && |got| == |run.s.plan[next].bytes|
      modifies this`run
      ensures Ready(x, Idle, next + 1) && run.s.plan == old(run.s.plan)
      ensures x == Reader ==> run.s.received == old(run.s.received) + [got] && got == run.s.plan[next].bytes
      ensures forall r :: Continues(r, old(run)) ==> Continues(r, run)
      ensures Did(x) == old(Did(x)) + [Copied(got)]
    {
      hide IsRun;
      var t := Put(run.s, x, Get(run.s, x).(next := next + 1, pc := Idle));
      Commit(x, if x == Writer then t else t.(received := t.received + [got]));
      ReadsWhatWasWritten(run);
      assert x == Reader ==> run.s.received[|run.s.received| - 1] == got;
    }

    /** Write: the message is copied to the place that Prepare returned.  A parked writer leaves. */
    method Write(m: Message, ghost next: nat) returns (parked: bool)
      requires Ready(Writer, Idle, next) && next < |run.s.plan| && run.s.plan[next] == m
      modifies this, buffer, writer, reader
      ensures !parked ==> Ready(Writer, Idle, next + 1)
      ensures parked ==> writer.semaphore == 0 && exists pos, end, seen :: Ready(Writer, Waiting(pos, end, Parked(seen)), next)
      ensures run.s.plan == old(run.s.plan)
      ensures forall r :: Continues(r, old(run)) ==> Continues(r, run)
      ensures Did(Writer) == old(Did(Writer)) + if parked then [] else [Copied(m.bytes)]
    {
      hide IsRun, Others, Wakeups, Continues, Ready;
      var pos;
      pos, parked := Prepare(Writer, m.alignment, |m.bytes|, next);
      if !parked {
        var i := 0;
        assert m.bytes[..0] == [];
        while i < |m.bytes|
          invariant i <= |m.bytes| && Ready(Writer, Copying(pos, m.bytes[..i]), next)
          invariant run.s.plan == old(run.s.plan)
          invariant forall r :: Continues(r, old(run)) ==> Continues(r, run)
          invariant Did(Writer) == old(Did(Writer))
        {
          Interfere(Writer, Copying(pos, m.bytes[..i]), next);
          PutByte(m, pos, i, next);
          i := i + 1;
        }
        assert m.bytes[..i] == m.bytes;
        LeaveCopy(Writer, pos, m.bytes[..i], next);
      }
    }

    /** Read: the bytes found are those of message `next`, whatever the writer does meanwhile. */
    method Read(alignment: nat, length: nat, ghost next: nat) returns (parked: bool, bytes: seq<Byte>)
      requires Ready(Reader, Idle, next) && Matches(next, alignment, length)
      modifies this, buffer, writer, reader
      ensures !parked ==> Ready(Reader, Idle, next + 1) && next < |run.s.plan| && bytes == run.s.plan[next].bytes
      ensures parked ==> reader.semaphore == 0 && exists pos, end, seen :: Ready(Reader, Waiting(pos, end, Parked(seen)), next)
      ensures run.s.plan == old(run.s.plan)
      ensures forall r :: Continues(r, old(run)) ==> Continues(r, run)
      ensures Did(Reader) == old(Did(Reader)) + if parked then [] else [Copied(bytes)]
    {
      hide IsRun, Others, Wakeups, Continues, Ready;
      var pos;
      bytes := [];
      pos, parked := Prepare(Reader, alignment, length, next);
      if !parked {
        while |bytes| < length
          invariant |bytes| <= length && Ready(Reader, Copying(pos, bytes), next)
          invariant run.s.plan == old(run.s.plan)
          invariant forall r :: Continues(r, old(run)) ==> Continues(r, run)
          invariant Did(Reader) == old(Did(Reader))
        {
          Interfere(Reader, Copying(pos, bytes), next);
          var b := TakeByte(pos, length, bytes, next);
          bytes := bytes + [b];
        }
        LeaveCopy(Reader, pos, bytes, next);
      }
    }

    /* ----- FinishWrite, FinishRead ----- */

    method StorePosition(x: Side, ghost next: nat)
      requires Ready(x, Idle, next)
      modifies this`run, Local(x)`shared
      ensures Ready(x, Stored, next) && run.s.plan == old(run.s.plan)
      ensures Get(run.s, x).done == next && Local(x).shared == Local(x).base + Local(x).pos
      ensures forall r :: Continues(r, old(run)) ==> Continues(r, run)
      ensures Did(x) == old(Did(x)) + [Published(Local(x).shared)]
    {
      hide IsRun;
      ghost var e := Get(run.s, x);
      Local(x).shared := Local(x).base + Local(x).pos;
      Commit(x, Put(run.s, x, e.(shared := e.base + e.pos, done := e.next, pc := Stored)));
    }

    method ExchangeFlag(x: Side, ghost next: nat) returns (signal: bool)
      requires Ready(x, Stored, next)
      modifies this`run, Local(x)`shouldSignal
      ensures Ready(x, if signal then Signalling else Idle, next) && run.s.plan == old(run.s.plan)
      ensures signal == old(Local(x).shouldSignal) && !Local(x).shouldSignal
      ensures Get(run.s, x).done == old(Get(run.s, x).done)
      ensures forall r :: Continues(r, old(run)) ==> Continues(r, run)
      ensures Did(x) == old(Did(x)) + [TookFlag(signal)]
    {
      hide IsRun;
      ghost var e := Get(run.s, x);
      signal := Local(x).shouldSignal;
      Local(x).shouldSignal := false;
      Commit(x, Put(run.s, x, e.(shouldSignal := false, pc := if signal then Signalling else Idle)));
    }

    method SignalOther(x: Side, ghost next: nat)
      requires Ready(x, Signalling, next)
      modifies this`run, Local(Other(x))`semaphore
      ensures Ready(x, Idle, next) && run.s.plan == old(run.s.plan)
      ensures Local(Other(x)).semaphore == 1 && old(Local(Other(x)).semaphore) == 0
      ensures Get(run.s, x).done == old(Get(run.s, x).done)
      ensures forall r :: Continues(r, old(run)) ==> Continues(r, run)
      ensures Did(x) == old(Did(x)) + [Signalled]
    {
      hide IsRun;
      Handshake(run, Other(x));
      ghost var e, o := Get(run.s, x), Get(run.s, Other(x));
      Local(Other(x)).semaphore := Local(Other(x)).semaphore + 1;
      Commit(x, Put(Put(run.s, Other(x), o.(semaphore := o.semaphore + 1)), x, e.(pc := Idle)));
    }

    /** Publish the position, then take the flag and signal if the other side asked for it. */
    method Finish(x: Side, ghost next: nat) returns (ghost signal: bool)
      requires Ready(x, Idle, next)
      modifies this, buffer, writer, reader
      ensures Ready(x, Idle, next) && run.s.plan == old(run.s.plan)
      ensures Get(run.s, x).done == next
      ensures Local(x).shared == old(Local(x).base) + old(Local(x).pos)
      ensures forall r :: Continues(r, old(run)) ==> Continues(r, run)
      ensures Did(x) == old(Did(x)) + [Published(Local(x).shared), TookFlag(signal)] + if signal then [Signalled] else []
    {
      hide IsRun, Others, Wakeups, Continues, Did, Valid;
      Interfere(x, Idle, next);
      StorePosition(x, next);
      Interfere(x, Stored, next);
      var asked := ExchangeFlag(x, next);
      signal := asked;
      if asked {
        Interfere(x, Signalling, next);
        SignalOther(x, next);
      }
    }
  }
}

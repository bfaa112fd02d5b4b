/** The positions of the messages and the inductive invariant of the ring buffer. */
module RingInvariant {
  import opened Runs
  import opened Bits
  import opened RingModel

  /* ----- where each message lies, as a function of the message sequence alone ----- */

  datatype Cursor = Cursor(base: nat, pos: nat)

  function Abs(c: Cursor): nat {
    c.base + c.pos
  }

  /** Where message `m` starts for a side that stands at `c`: aligned, or at the start of the next lap. */
  function Place(size: nat, c: Cursor, m: Message): Cursor
    requires m.alignment >= 1
  {
    var a := AlignUp(c.pos, m.alignment);
    if a + |m.bytes| <= size then Cursor(c.base, a) else Cursor(c.base + size, 0)
  }

  function Past(size: nat, c: Cursor, m: Message): Cursor
    requires m.alignment >= 1
  {
    var p := Place(size, c, m);
    Cursor(p.base, p.pos + |m.bytes|)
  }

  lemma Pow2Positive(plan: seq<Message>, k: nat)
    requires PlanOk(plan) && k < |plan|
    ensures plan[k].alignment >= 1
  {
  }

  /** Where both sides stand after `k` messages. */
  ghost function At(size: nat, plan: seq<Message>, k: nat): Cursor
    requires PlanOk(plan) && k <= |plan|
  {
    if k == 0 then Cursor(0, 0) else Past(size, At(size, plan, k - 1), plan[k - 1])
  }

  /** Messages before `k` fit into the buffer. */
  predicate Fit(size: nat, plan: seq<Message>, k: nat)
    requires k <= |plan|
  {
    forall j :: 0 <= j < k ==> |plan[j].bytes| <= size
  }

  lemma PastBounds(size: nat, c: Cursor, m: Message)
    requires m.alignment >= 1 && c.pos <= size
    ensures Abs(c) <= Abs(Place(size, c, m))
    ensures Place(size, c, m).base == c.base || Place(size, c, m) == Cursor(c.base + size, 0)
    ensures |m.bytes| <= size ==> Past(size, c, m).pos <= size
    ensures size > 0 && Place(size, c, m).base == c.base ==>
              c.pos <= Place(size, c, m).pos && Past(size, c, m).pos <= size
  {
    AlignUpIsLeast(c.pos, m.alignment);
  }

  lemma {:induction false} AtBounds(size: nat, plan: seq<Message>, k: nat)
    requires PlanOk(plan) && k <= |plan| && Fit(size, plan, k)
    ensures At(size, plan, k).pos <= size
  {
    if k > 0 {
      AtBounds(size, plan, k - 1);
      PastBounds(size, At(size, plan, k - 1), plan[k - 1]);
    }
  }

  /** Later positions are not smaller, and lie in the same lap or at least one lap further. */
  lemma {:induction false} AtMono(size: nat, plan: seq<Message>, j: nat, k: nat)
    requires PlanOk(plan) && j <= k <= |plan| && Fit(size, plan, k)
    ensures Abs(At(size, plan, j)) <= Abs(At(size, plan, k))
    ensures At(size, plan, j).base == At(size, plan, k).base
            || At(size, plan, j).base + size <= At(size, plan, k).base
    decreases k
  {
    hide Place, AlignUp;
    if j < k {
      AtMono(size, plan, j, k - 1);
      AtBounds(size, plan, k - 1);
      PastBounds(size, At(size, plan, k - 1), plan[k - 1]);
    }
  }

  /** The start of message `k`. */
  ghost function Begin(s: State, k: nat): Cursor
    requires PlanOk(s.plan) && k < |s.plan|
  {
    Place(s.size, At(s.size, s.plan, k), s.plan[k])
  }

  /* ----- the invariant on positions and bytes ----- */

  function Reached(e: End): nat {
    if e.pc.Copying? then e.next + 1 else e.next
  }

  /** The counts of a side, and how far it may be ahead of the other's published position. */
  ghost predicate CountsOk(s: State, x: Side)
    requires PlanOk(s.plan)
  {
    var e, o := Get(s, x), Get(s, Other(x));
    && e.done <= e.next <= Reached(e) <= |s.plan| && Fit(s.size, s.plan, Reached(e))
    && e.shared == Abs(At(s.size, s.plan, e.done))
    && Abs(At(s.size, s.plan, Reached(e))) <= o.shared + Credit(s, x)
  }

  /** A side that is not waiting stands within the limit it has seen. */
  predicate WithinLimit(s: State, x: Side) {
    var e, o := Get(s, x), Get(s, Other(x));
    e.pos <= e.end <= s.size && e.base + e.end <= o.shared + Credit(s, x)
  }

  ghost predicate WaitingAt(s: State, e: End, pos: nat, end: nat)
    requires PlanOk(s.plan)
  {
    && e.next < |s.plan|
    && Begin(s, e.next) == Cursor(e.base, pos) && end == pos + |s.plan[e.next].bytes|
    && e.pos == At(s.size, s.plan, e.next).pos
  }

  ghost predicate CopyingAt(s: State, e: End, pos: nat, got: seq<Byte>)
    requires PlanOk(s.plan)
  {
    && e.next < |s.plan|
    && Begin(s, e.next) == Cursor(e.base, pos) && e.pos == pos + |s.plan[e.next].bytes|
    && got <= s.plan[e.next].bytes
  }

  ghost predicate StandingAt(s: State, e: End)
    requires PlanOk(s.plan)
  {
    e.next <= |s.plan| && At(s.size, s.plan, e.next) == Cursor(e.base, e.pos)
  }

  /** The side stands where the message sequence says. */
  ghost predicate PlaceOk(s: State, x: Side)
    requires PlanOk(s.plan)
  {
    var e := Get(s, x);
    && (e.pc.Waiting? ==> WaitingAt(s, e, e.pc.pos, e.pc.end))
    && (e.pc.Copying? ==> CopyingAt(s, e, e.pc.pos, e.pc.got))
    && (!e.pc.Waiting? && !e.pc.Copying? ==> StandingAt(s, e))
    && (!e.pc.Waiting? ==> WithinLimit(s, x))
  }

  ghost predicate SideOk(s: State, x: Side)
    requires PlanOk(s.plan)
  {
    CountsOk(s, x) && PlaceOk(s, x)
  }

  /** How many bytes of message `k` the writer has put into the buffer. */
  function Written(s: State, k: nat): nat
    requires k < |s.plan|
  {
    if k < s.writer.next then |s.plan[k].bytes|
    else if k == s.writer.next && s.writer.pc.Copying? then |s.writer.pc.got|
    else 0
  }

  /** Messages the reader has not released are intact in the buffer, as far as written. */
  ghost predicate BytesOk(s: State)
    requires PlanOk(s.plan) && |s.buffer| == s.size
  {
    forall k, i :: s.reader.done <= k < |s.plan| && 0 <= i < Written(s, k) ==> ByteOk(s, k, i)
  }

  /** Byte `i` of message `k` is where it belongs. */
  ghost predicate ByteOk(s: State, k: nat, i: nat)
    requires PlanOk(s.plan) && |s.buffer| == s.size && k < |s.plan|
  {
    && i < |s.plan[k].bytes|
    && Begin(s, k).pos + i < s.size
    && s.buffer[Begin(s, k).pos + i] == s.plan[k].bytes[i]
  }

  ghost predicate ReceivedOk(s: State) {
    && |s.received| == s.reader.next <= |s.plan|
    && forall k :: 0 <= k < |s.received| ==> s.received[k] == s.plan[k].bytes
  }

  ghost predicate Inv(s: State) {
    && s.size >= 1 && |s.buffer| == s.size && PlanOk(s.plan)
    && SideOk(s, Writer) && SideOk(s, Reader) && BytesOk(s) && ReceivedOk(s)
  }

  lemma AtZero(size: nat, plan: seq<Message>, k: nat)
    requires PlanOk(plan) && k <= |plan| && k == 0
    ensures At(size, plan, k) == Cursor(0, 0)
  {
  }

  lemma InitSide(s: State, x: Side)
    requires Init(s)
    ensures SideOk(s, x)
  {
    hide At, IsPow2, WaitingAt, CopyingAt;
    AtZero(s.size, s.plan, Get(s, x).next);
    assert CountsOk(s, x);
    assert PlaceOk(s, x);
  }

  lemma InitBytes(s: State)
    requires Init(s)
    ensures BytesOk(s) && ReceivedOk(s)
  {
    hide At, IsPow2, ByteOk;
    assert forall k :: 0 <= k < |s.plan| ==> Written(s, k) == 0;
  }

  lemma InitInv(s: State)
    requires Init(s)
    ensures Inv(s)
  {
    assert s.size >= 1;
    hide At, IsPow2, SideOk, BytesOk, ReceivedOk;
    InitBytes(s);
    InitSide(s, Writer);
    InitSide(s, Reader);
  }

  /* ----- the handshake does not touch positions or bytes ----- */

  /** Equal but for the stage of a wait and for what follows a publication. */
  predicate SamePlace(pc: PC, pc': PC) {
    match pc
    case Waiting(pos, end, _) => pc'.Waiting? && pc'.pos == pos && pc'.end == end
    case Copying(_, _) => pc' == pc
    case _ => pc'.Idle? || pc'.Stored? || pc'.Signalling?
  }

  predicate SameEnd(e: End, e': End) {
    && e'.pos == e.pos && e'.end == e.end && e'.base == e.base && e'.shared == e.shared
    && e'.next == e.next && e'.done == e.done && SamePlace(e.pc, e'.pc)
  }

  predicate SameData(s: State, s': State) {
    && s'.size == s.size && s'.plan == s.plan && s'.buffer == s.buffer && s'.received == s.received
    && SameEnd(s.writer, s'.writer) && SameEnd(s.reader, s'.reader)
  }

  lemma SignalIsQuiet(s: State, s': State, x: Side)
    requires SignalNext(s, s', x)
    ensures SameData(s, s')
  {
    if Request(s, s', x) {
    } else if Recheck(s, s', x) {
    } else if Cancel(s, s', x) {
    } else {
    }
  }

  lemma SideFrame(s: State, s': State, x: Side)
    requires PlanOk(s.plan) && SideOk(s, x)
    requires s'.size == s.size && s'.plan == s.plan && SameEnd(Get(s, x), Get(s', x))
    requires Get(s, Other(x)).shared <= Get(s', Other(x)).shared
    ensures SideOk(s', x)
  {
    hide At, Place, IsPow2;
  }

  lemma BytesFrame(s: State, s': State)
    requires PlanOk(s.plan) && |s.buffer| == s.size && BytesOk(s)
    requires s'.size == s.size && s'.plan == s.plan && s'.buffer == s.buffer
    requires s.reader.done <= s'.reader.done
    requires forall k :: 0 <= k < |s.plan| ==> Written(s', k) <= Written(s, k)
    ensures BytesOk(s')
  {
    forall k, i | s'.reader.done <= k < |s.plan| && 0 <= i < Written(s', k) ensures ByteOk(s', k, i) {
      assert ByteOk(s, k, i);
    }
  }

  lemma SignalKeeps(s: State, s': State, x: Side)
    requires Inv(s) && SignalNext(s, s', x)
    ensures Inv(s')
  {
    hide At, Place, IsPow2;
    SignalIsQuiet(s, s', x);
    SideFrame(s, s', Writer);
    SideFrame(s, s', Reader);
    BytesFrame(s, s');
  }

  /* ----- positions ----- */

  /** What one side publishes bounds the other: the free or readable part is at most one lap. */
  lemma AvailableBounds(s: State, x: Side)
    requires PlanOk(s.plan) && s.size >= 1 && SideOk(s, x) && SideOk(s, Other(x)) && Get(s, x).pc.Waiting?
    ensures 0 - s.size <= Available(s, x, Get(s, Other(x)).shared) <= 2 * s.size
    ensures Get(s, x).pc.pos == 0 && Get(s, x).pc.end > s.size ==>
              Available(s, x, Get(s, Other(x)).shared) <= s.size
  {
    hide At, IsPow2;
    var e, o := Get(s, x), Get(s, Other(x));
    AtBounds(s.size, s.plan, e.next);
    AtMono(s.size, s.plan, o.done, Reached(o));
    AtMono(s.size, s.plan, e.done, Reached(e));
  }

  lemma StepAt(s: State, k: nat)
    requires PlanOk(s.plan) && k < |s.plan|
    ensures At(s.size, s.plan, k + 1) == Cursor(Begin(s, k).base, Begin(s, k).pos + |s.plan[k].bytes|)
  {
  }

  /** Side `x` has moved, without touching the buffer. */
  ghost predicate Moved(s: State, s': State, x: Side) {
    && s'.size == s.size && s'.plan == s.plan && s'.buffer == s.buffer
    && Get(s', Other(x)) == Get(s, Other(x))
    && Get(s, x).shared <= Get(s', x).shared && s.reader.done <= s'.reader.done
  }

  lemma MovedKeeps(s: State, s': State, x: Side)
    requires Inv(s) && Moved(s, s', x) && SideOk(s', x) && ReceivedOk(s')
    requires forall k :: 0 <= k < |s.plan| ==> Written(s', k) <= Written(s, k)
    ensures Inv(s')
  {
    hide At, Place, IsPow2;
    SideFrame(s, s', Other(x));
    BytesFrame(s, s');
  }

  /** Moving on to copy the next message: within the limit and at the place the plan says. */
  lemma StartCopy(s: State, s': State, x: Side, base: nat, pos: nat, end: nat, limit: nat)
    requires s.size >= 1 && PlanOk(s.plan) && SideOk(s, x) && !Get(s, x).pc.Copying?
    requires s' == Put(s, x, Get(s, x).(base := base, pos := end, end := limit, pc := Copying(pos, [])))
    requires Get(s, x).next < |s.plan| && Begin(s, Get(s, x).next) == Cursor(base, pos)
    requires end == pos + |s.plan[Get(s, x).next].bytes|
    requires end <= limit <= s.size && base + limit <= Get(s, Other(x)).shared + Credit(s, x)
    ensures SideOk(s', x)
  {
    hide At, Place, IsPow2;
    StepAt(s, Get(s, x).next);
    assert CountsOk(s', x);
    assert PlaceOk(s', x);
  }

  lemma PrepareSide(s: State, s': State, x: Side)
    requires s.size >= 1 && PlanOk(s.plan) && SideOk(s, x) && Prepare(s, s', x)
    ensures SideOk(s', x)
  {
    hide At, IsPow2;
    var e, e' := Get(s, x), Get(s', x);
    if e'.pc.Copying? {
      StartCopy(s, s', x, e.base, e'.pc.pos, e'.pos, e.end);
    } else {
      assert CountsOk(s', x);
      assert PlaceOk(s', x);
    }
  }

  lemma PrepareMoves(s: State, s': State, x: Side)
    requires Prepare(s, s', x)
    ensures Moved(s, s', x) && s'.received == s.received && s'.reader.next == s.reader.next
    ensures forall k :: 0 <= k < |s.plan| ==> Written(s', k) <= Written(s, k)
  {
  }

  lemma PrepareKeeps(s: State, s': State, x: Side)
    requires Inv(s) && Prepare(s, s', x)
    ensures Inv(s')
  {
    PrepareSide(s, s', x);
    PrepareMoves(s, s', x);
    MovedKeeps(s, s', x);
  }

  lemma SampleSide(s: State, s': State, x: Side)
    requires s.size >= 1 && PlanOk(s.plan) && SideOk(s, x) && SideOk(s, Other(x)) && Sample(s, s', x)
    ensures SideOk(s', x)
  {
    var e, e' := Get(s, x), Get(s', x);
    if e'.pc.Copying? {
      AvailableBounds(s, x);
      StartCopy(s, s', x, e.base, e'.pc.pos, e'.pos, e'.end);
    } else {
      SideFrame(s, s', x);
    }
  }

  lemma SampleMoves(s: State, s': State, x: Side)
    requires Sample(s, s', x)
    ensures Moved(s, s', x) && s'.received == s.received && s'.reader.next == s.reader.next
    ensures forall k :: 0 <= k < |s.plan| ==> Written(s', k) <= Written(s, k)
  {
  }

  lemma SampleKeeps(s: State, s': State, x: Side)
    requires Inv(s) && Sample(s, s', x)
    ensures Inv(s')
  {
    SampleMoves(s, s', x);
    SampleSide(s, s', x);
    hide Sample, SideOk, BytesOk, Written;
    MovedKeeps(s, s', x);
  }

  lemma EndCopySide(s: State, s': State, x: Side)
    requires s.size >= 1 && PlanOk(s.plan) && SideOk(s, x) && EndCopy(s, s', x)
    ensures SideOk(s', x)
  {
    hide At, Place, IsPow2;
    StepAt(s, Get(s, x).next);
    assert CountsOk(s', x);
    assert PlaceOk(s', x);
  }

  lemma EndCopyMoves(s: State, s': State, x: Side)
    requires EndCopy(s, s', x)
    ensures Moved(s, s', x)
    ensures forall k :: 0 <= k < |s.plan| ==> Written(s', k) <= Written(s, k)
  {
  }

  lemma EndCopyReceives(s: State, s': State, x: Side)
    requires PlanOk(s.plan) && PlaceOk(s, x) && ReceivedOk(s) && EndCopy(s, s', x)
    ensures ReceivedOk(s')
  {
  }

  lemma EndCopyKeeps(s: State, s': State, x: Side)
    requires Inv(s) && EndCopy(s, s', x)
    ensures Inv(s')
  {
    EndCopySide(s, s', x);
    EndCopyMoves(s, s', x);
    EndCopyReceives(s, s', x);
    MovedKeeps(s, s', x);
  }

  lemma StoreSide(s: State, s': State, x: Side)
    requires s.size >= 1 && PlanOk(s.plan) && SideOk(s, x) && Store(s, s', x)
    ensures SideOk(s', x) && Get(s, x).shared <= Get(s', x).shared
  {
    hide At, Place, IsPow2;
    AtMono(s.size, s.plan, Get(s, x).done, Get(s, x).next);
    assert CountsOk(s', x);
    assert PlaceOk(s', x);
  }

  lemma StoreKeeps(s: State, s': State, x: Side)
    requires Inv(s) && Store(s, s', x)
    ensures Inv(s')
  {
    hide At, Place, IsPow2;
    StoreSide(s, s', x);
    MovedKeeps(s, s', x);
  }

  /* ----- bytes ----- */

  /** Two messages, the first not released and the second within one lap of the released position. */
  lemma Apart(size: nat, a: Cursor, i: nat, b: Cursor, n: nat, released: nat)
    requires released <= Abs(a) && Abs(a) + i < Abs(b)
    requires Abs(b) + n < released + size
    requires a.base == b.base || a.base + size <= b.base
    ensures a.pos + i != b.pos + n
  {
  }

  /** The bytes the writer may fill next are not among those the reader has not released. */
  lemma Disjoint(s: State, j: nat, i: nat, k: nat, n: nat)
    requires PlanOk(s.plan) && s.size >= 1 && k < |s.plan| && Fit(s.size, s.plan, k + 1)
    requires CountsOk(s, Reader) && s.reader.done <= j < k
    requires i < |s.plan[j].bytes| && n < |s.plan[k].bytes|
    requires Abs(At(s.size, s.plan, k + 1)) <= s.reader.shared + s.size
    ensures Begin(s, j).pos + i != Begin(s, k).pos + n
  {
    hide At, Begin;
    StepAt(s, j);
    StepAt(s, k);
    BeginAfter(s, j);
    BeginAfter(s, k);
    AtMono(s.size, s.plan, s.reader.done, j);
    AtMono(s.size, s.plan, j + 1, k);
    AtMono(s.size, s.plan, j + 1, k + 1);
    Apart(s.size, Begin(s, j), i, Begin(s, k), n, s.reader.shared);
  }

  lemma BeginAfter(s: State, k: nat)
    requires PlanOk(s.plan) && k < |s.plan| && Fit(s.size, s.plan, k)
    ensures Abs(At(s.size, s.plan, k)) <= Abs(Begin(s, k))
  {
    AtBounds(s.size, s.plan, k);
    PastBounds(s.size, At(s.size, s.plan, k), s.plan[k]);
  }

  lemma WriteByteSide(s: State, s': State)
    requires PlanOk(s.plan) && SideOk(s, Writer) && CopyByte(s, s', Writer)
    ensures SideOk(s', Writer)
  {
    hide At, Place, IsPow2;
    assert CountsOk(s', Writer);
    assert PlaceOk(s', Writer);
  }

  lemma WriteByteKeepsBytes(s: State, s': State)
    requires PlanOk(s.plan) && s.size >= 1 && |s.buffer| == s.size && BytesOk(s)
    requires SideOk(s, Writer) && CountsOk(s, Reader) && CopyByte(s, s', Writer)
    ensures |s'.buffer| == s'.size && BytesOk(s')
  {
    hide IsPow2, At, Place;
    var e := s.writer;
    var n := |e.pc.got|;
    forall k, i | s'.reader.done <= k < |s.plan| && 0 <= i < Written(s', k) ensures ByteOk(s', k, i) {
      assert Begin(s', k) == Begin(s, k);
      if k < e.next {
        assert ByteOk(s, k, i);
        Disjoint(s, k, i, e.next, n);
      } else if i < n {
        assert ByteOk(s, k, i);
      }
    }
  }

  lemma WriteByteKeeps(s: State, s': State)
    requires Inv(s) && CopyByte(s, s', Writer)
    ensures Inv(s')
  {
    WriteByteSide(s, s');
    SideFrame(s, s', Reader);
    WriteByteKeepsBytes(s, s');
  }

  /** A byte the reader copies is published, so it is the byte of the message. */
  lemma ReadByteIsRight(s: State, s': State)
    requires Inv(s) && CopyByte(s, s', Reader)
    ensures s'.reader.pc.got == s.plan[s.reader.next].bytes[..|s.reader.pc.got| + 1]
  {
    hide IsPow2, At;
    var e := s.reader;
    var k, n := e.next, |e.pc.got|;
    assert k < s.writer.done by {
      if s.writer.done <= k {
        AtMono(s.size, s.plan, s.writer.done, k);
        StepAt(s, k);
        BeginAfter(s, k);
      }
    }
    assert ByteOk(s, k, n);
  }

  lemma ReadByteKeeps(s: State, s': State)
    requires Inv(s) && CopyByte(s, s', Reader)
    ensures Inv(s')
  {
    ReadByteIsRight(s, s');
    ReadByteSide(s, s');
    SideFrame(s, s', Writer);
    BytesFrame(s, s');
  }

  lemma ReadByteSide(s: State, s': State)
    requires PlanOk(s.plan) && SideOk(s, Reader) && CopyByte(s, s', Reader)
    requires s'.reader.pc.got == s.plan[s.reader.next].bytes[..|s.reader.pc.got| + 1]
    ensures SideOk(s', Reader)
  {
    hide At, Place, IsPow2;
    assert CountsOk(s', Reader);
    assert PlaceOk(s', Reader);
  }

  lemma InvNext(s: State, s': State, x: Side)
    requires Inv(s) && Next(s, s', x)
    ensures Inv(s')
  {
    if SignalNext(s, s', x) {
      SignalKeeps(s, s', x);
    } else if Prepare(s, s', x) {
      PrepareKeeps(s, s', x);
    } else if Sample(s, s', x) {
      SampleKeeps(s, s', x);
    } else if EndCopy(s, s', x) {
      EndCopyKeeps(s, s', x);
    } else if Store(s, s', x) {
      StoreKeeps(s, s', x);
    } else if x == Writer {
      WriteByteKeeps(s, s');
    } else {
      ReadByteKeeps(s, s');
    }
  }
}

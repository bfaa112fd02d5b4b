/** `push` run by producer `t`, and `pop` run by the consumer, while the other threads interfere.  Every
    atomic access is a step of the transition system. */
module MpscCode {
  import opened Modular
  import opened MpscModel
  import opened MpscTheorems
  import opened Options
  import opened Runs

  datatype Me = Producer(t: nat) | Popper

  /** `later` continues `run` with steps of other threads. */
  ghost predicate Others(run: Run<State>, later: Run<State>, me: Me) {
    later == run || (later.Then? && Others(run, later.before, me) && StepOfOther(later.before.s, later.s, me))
  }

  ghost predicate StepOfOther(s: State, s': State, me: Me) {
    match me
    case Popper => exists u :: PushNext(s, s', u)
    case Producer(t) => PopNext(s, s') || exists u :: u != t && PushNext(s, s', u)
  }

  /** How often the reserve and the commit index move in `later` after its prefix `run`. */
  ghost function Moves(run: Run<State>, later: Run<State>): nat {
    if later == run || later.Start? then 0
    else
      Moves(run, later.before)
      + if later.s.reserve != later.before.s.reserve || later.s.commit != later.before.s.commit then 1 else 0
  }

  /** What each thread can rely on. */
  ghost predicate Mine(s: State, s': State, me: Me) {
    && |s'.buf| == |s.buf| && |s'.producers| == |s.producers|
    && s.reserved <= s'.reserved && s.owner <= s'.owner && s.commit <= s'.commit
    && match me
       case Producer(t) => t < |s.producers| && s'.producers[t] == s.producers[t]
       case Popper => s'.consumer == s.consumer && s'.read == s.read && s'.popped == s.popped
  }

  lemma MineNext(s: State, s': State, me: Me)
    requires StepOfOther(s, s', me) && (me.Producer? ==> me.t < |s.producers|)
    ensures Mine(s, s', me)
  {
    hide Wrap;
  }

  /** What a producer has done so far with the indices and the slots. */
  datatype Act = Reserved(msg: Value, k: nat) | Wrote(k: nat) | Committed(k: nat) | Refused

  function ActOf(s: State, s': State, t: nat): seq<Act> {
    if t < |s.producers| && t < |s'.producers| then
      match (s.producers[t], s'.producers[t])
      case (Reserving(_, _, _), Writing(msg, k)) => [Reserved(msg, k)]
      case (Writing(_, k), Committing(_, _)) => [Wrote(k)]
      case (Committing(_, k), Returned(_)) => [Committed(k)]
      case (LoadingRead(_, _), Returned(_)) => [Refused]
      case _ => []
    else
      []
  }

  function Acts(run: Run<State>, t: nat): seq<Act> {
    match run
    case Start(_) => []
    case Then(before, s) => Acts(before, t) + ActOf(before.s, s, t)
  }

  lemma {:induction false} OthersKeepMine(run: Run<State>, later: Run<State>, me: Me)
    requires IsRun(run) && Others(run, later, me) && (me.Producer? ==> me.t < |run.s.producers|)
    ensures IsRun(later) && Mine(run.s, later.s, me)
    ensures me.Producer? ==> Acts(later, me.t) == Acts(run, me.t)
    ensures Moves(run, later) == 0 ==> later.s.reserve == run.s.reserve && later.s.commit == run.s.commit
    decreases later
  {
    hide StepOfOther, Steps;
    if later != run {
      OthersKeepMine(run, later.before, me);
      MineNext(later.before.s, later.s, me);
      SomeStep(later.before.s, later.s, me);
    }
  }

  lemma SomeStep(s: State, s': State, me: Me)
    requires StepOfOther(s, s', me)
    ensures Steps(s, s')
  {
  }

  class MpscQueue {
    const buf: array<Value>
    var readIndex: nat
    var commitWriteIndex: nat
    var reserveWriteIndex: nat
    ghost var run: Run<State>
    ghost var budget: nat                  // moves of the indices by others, and spurious failures, to come

    ghost predicate Valid()
      reads this, buf
    {
      && IsRun(run) && run.s.buf == buf[..] && run.s.read == readIndex
      && run.s.commit == commitWriteIndex && run.s.reserve == reserveWriteIndex
    }

    /** Producer `t` is at `pc`. */
    ghost predicate Ready(t: nat, pc: PC)
      reads this, buf
    {
      Valid() && t < |run.s.producers| && run.s.producers[t] == pc
    }

    /** The consumer is at `c`. */
    ghost predicate Popping(c: Consumer)
      reads this, buf
    {
      Valid() && run.s.consumer == c
    }

    /** Index `own` is the producer's, and its slot has been written. */
    ghost predicate Filled(own: nat, t: nat)
      reads this
    {
      own < |run.s.owner| == |run.s.written| && run.s.owner[own] == t && run.s.written[own]
    }

    /** The producer has filled an index, not below `first`, with the message. */
    ghost predicate Pushed(first: nat, msg: Value, t: nat)
      reads this
    {
      exists own :: first <= own < |run.s.reserved| && run.s.reserved[own] == msg && Filled(own, t)
    }

    /** What producer `t` has done so far. */
    ghost function Did(t: nat): seq<Act>
      reads this`run
    {
      Acts(run, t)
    }

    constructor (buf: array<Value>, ghost producers: nat, ghost budget: nat)
      requires buf.Length > 0
      ensures this.buf == buf && this.budget == budget && Popping(Resting)
      ensures forall t :: 0 <= t < producers ==> Ready(t, Idle)
    {
      this.buf := buf;
      readIndex, commitWriteIndex, reserveWriteIndex := 0, 0, 0;
      run := Start(State(buf[..], 0, 0, 0, seq(producers, _ => Idle), Resting, [], [], [], []));
      this.budget := budget;
    }

    ghost method CommitStep(s': State)
      requires IsRun(run) && Steps(run.s, s')
      modifies this`run
      ensures IsRun(run) && run.s == s' && Grew(old(run), run)
      ensures run == Then(old(run), s')
    {
      run := Then(run, s');
    }

    /** Other threads run for any finite number of steps. */
    method Interfere(ghost me: Me, ghost pc: PC, ghost c: Consumer)
      requires Valid() && (me.Producer? ==> Ready(me.t, pc)) && (me.Popper? ==> Popping(c))
      modifies this, buf
      ensures Valid() && (me.Producer? ==> Ready(me.t, pc)) && (me.Popper? ==> Popping(c))
      ensures Others(old(run), run, me) && Mine(old(run.s), run.s, me) && Grew(old(run), run)
      ensures budget <= old(budget) && budget + Moves(old(run), run) <= old(budget)
      ensures budget == old(budget) ==>
                reserveWriteIndex == old(reserveWriteIndex) && commitWriteIndex == old(commitWriteIndex)
      ensures me.Producer? ==> Did(me.t) == old(Did(me.t))
    {
      OthersKeepMine(run, run, me);
    }

    ghost method Enter(t: nat, msg: Value)
      requires Ready(t, Idle) && buf.Length > 0
      modifies this`run
      ensures Ready(t, Loading(msg)) && Grew(old(run), run) && run.s.reserved == old(run.s.reserved)
      ensures run.s.commit == old(run.s.commit)
      ensures Did(t) == old(Did(t))
    {
      hide IsRun;
      var s' := At(run.s, t, Loading(msg));
      assert Begin(run.s, s', t, msg);
      assert PushNext(run.s, s', t);
      CommitStep(s');
    }

    ghost method Step(t: nat, s': State)
      requires IsRun(run) && PushNext(run.s, s', t)
      modifies this`run
      ensures IsRun(run) && run.s == s' && Grew(old(run), run)
      ensures Did(t) == old(Did(t)) + ActOf(old(run.s), s', t)
    {
      assert Steps(run.s, s');
      CommitStep(s');
    }

    method LoadReserveIndex(ghost t: nat, ghost msg: Value) returns (rw: nat)
      requires Ready(t, Loading(msg)) && buf.Length > 0
      modifies this`run
      ensures Ready(t, LoadingRead(msg, rw)) && Grew(old(run), run) && rw == reserveWriteIndex
      ensures run.s.reserved == old(run.s.reserved)
      ensures run.s.commit == old(run.s.commit)
      ensures Did(t) == old(Did(t))
    {
      hide IsRun, Did;
      rw := reserveWriteIndex;
      Step(t, At(run.s, t, LoadingRead(msg, rw)));
    }

    method LoadReadIndex(ghost t: nat, ghost msg: Value, rw: nat) returns (r: nat, full: bool)
      requires Ready(t, LoadingRead(msg, rw)) && buf.Length > 0
      modifies this`run
      ensures Ready(t, if full then Returned(false) else Reserving(msg, rw, r)) && Grew(old(run), run)
      ensures full ==> reserveWriteIndex - readIndex == buf.Length
      ensures run.s.reserved == old(run.s.reserved)
      ensures run.s.commit == old(run.s.commit)
      ensures Did(t) == old(Did(t)) + if full then [Refused] else []
    {
      hide IsRun, Did;
      r := readIndex;
      full := rw - r == buf.Length;
      ghost var s' := At(run.s, t, if full then Returned(false) else Reserving(msg, rw, r));
      if full {
        RefusedOnlyWhenFull(run, s', t);
      }
      Step(t, s');
    }

    /** `reserveWriteIndex.compare_exchange_weak(rw, rw + 1)`; a spurious failure uses up some budget. */
    method CasReserve(ghost t: nat, ghost msg: Value, rw: nat, ghost r: nat) returns (ok: bool)
      requires Ready(t, Reserving(msg, rw, r)) && buf.Length > 0
      modifies this
      ensures Ready(t, if ok then Writing(msg, rw) else Loading(msg)) && Grew(old(run), run)
      ensures budget <= old(budget)
      ensures !ok ==> old(reserveWriteIndex) != rw || budget < old(budget)
      ensures run.s.reserved == old(run.s.reserved) + if ok then [msg] else []
      ensures ok ==> |old(run.s.reserved)| == rw
      ensures run.s.commit == old(run.s.commit)
      ensures Did(t) == old(Did(t)) + if ok then [Reserved(msg, rw)] else []
    {
      hide IsRun, Did;
      RunInv(run);
      ok := reserveWriteIndex == rw;
      if ok {
        ghost var s := run.s;
        reserveWriteIndex := rw + 1;
        Step(t, At(s, t, Writing(msg, rw)).(reserve := rw + 1, reserved := s.reserved + [msg], owner := s.owner + [t],
                                            written := s.written + [false]));
      } else {
        Step(t, At(run.s, t, Loading(msg)));
      }
    }

    method StoreSlot(ghost t: nat, msg: Value, rw: nat)
      requires Ready(t, Writing(msg, rw)) && buf.Length > 0
      modifies this`run, buf
      ensures Ready(t, Committing(rw, rw)) && Grew(old(run), run) && run.s.reserved == old(run.s.reserved)
      ensures run.s.commit == old(run.s.commit)
      ensures Did(t) == old(Did(t)) + [Wrote(rw)]
    {
      hide IsRun, Wrap, Did;
      RunInv(run);
      assert ProducerOk(run.s, t);
      ghost var s := run.s;
      var i := Wrap(rw, buf.Length);
      buf[i] := msg;
      Step(t, At(s, t, Committing(rw, rw)).(buf := s.buf[i := msg], written := s.written[rw := true]));
    }

    /** `commitWriteIndex.compare_exchange_weak(rw, rw + 1)`: a failure overwrites `rw`. */
    method CasCommit(ghost t: nat, ghost own: nat, rw: nat) returns (ok: bool, rw': nat)
      requires Ready(t, Committing(own, rw)) && buf.Length > 0
      modifies this
      ensures Ready(t, if ok then Returned(true) else Committing(own, rw')) && Grew(old(run), run)
      ensures budget <= old(budget)
      ensures !ok ==> rw' == commitWriteIndex == old(commitWriteIndex) && (rw != rw' || budget < old(budget))
      ensures run.s.reserved == old(run.s.reserved)
      ensures run.s.commit == old(run.s.commit) + if ok then 1 else 0
      ensures ok ==> own < |run.s.owner| == |run.s.written| && run.s.owner[own] == t && run.s.written[own]
      ensures Did(t) == old(Did(t)) + if ok then [Committed(rw)] else []
    {
      hide IsRun, Did;
      RunInv(run);
      assert ProducerOk(run.s, t);
      ok := commitWriteIndex == rw;
      rw' := commitWriteIndex;
      if ok {
        commitWriteIndex := rw + 1;
        Step(t, At(run.s, t, Returned(true)).(commit := rw + 1));
      } else {
        Step(t, At(run.s, t, Committing(own, rw')));
      }
    }

    /** The inner loop: yield until the commit index is the one in `rw`. */
    method CommitIndex(ghost t: nat, own: nat) returns (ghost c: nat)
      requires Ready(t, Committing(own, own)) && buf.Length > 0
      modifies this, buf
      ensures Ready(t, Returned(true)) && Grew(old(run), run) && old(run.s.reserved) <= run.s.reserved
      ensures run.s.commit > old(run.s.commit) && Filled(own, t)
      ensures Did(t) == old(Did(t)) + [Committed(c)]
    {
      hide IsRun, Others, Moves, Continues, Did;
      var rw, done := own, false;
      c := own;
      while !done
        invariant Ready(t, if done then Returned(true) else Committing(own, rw)) && Grew(old(run), run)
        invariant old(run.s.reserved) <= run.s.reserved && old(run.s.commit) <= run.s.commit
        invariant Did(t) == old(Did(t)) + if done then [Committed(c)] else []
        invariant done ==> run.s.commit > old(run.s.commit) && Filled(own, t)
        decreases budget, if !done && rw != commitWriteIndex then 1 else 0, !done
      {
        Interfere(Producer(t), Committing(own, rw), Resting);
        c := rw;
        done, rw := CasCommit(t, own, rw);
      }
    }

    /** Write the slot reserved, then commit. */
    method Publish(ghost t: nat, msg: Value, rw: nat) returns (ghost c: nat)
      requires Ready(t, Writing(msg, rw)) && buf.Length > 0
      modifies this, buf
      ensures Ready(t, Returned(true)) && Grew(old(run), run) && old(run.s.reserved) <= run.s.reserved
      ensures run.s.commit > old(run.s.commit) && Filled(rw, t)
      ensures Did(t) == old(Did(t)) + [Wrote(rw), Committed(c)]
    {
      hide IsRun, Others, Moves, Continues, Did;
      Interfere(Producer(t), Writing(msg, rw), Resting);
      StoreSlot(t, msg, rw);
      c := CommitIndex(t, rw);
    }

    ghost method Leave(t: nat, ok: bool)
      requires Ready(t, Returned(ok)) && buf.Length > 0
      modifies this`run
      ensures Ready(t, Idle) && Grew(old(run), run) && run.s.reserved == old(run.s.reserved)
      ensures run.s.commit == old(run.s.commit)
      ensures run.s.owner == old(run.s.owner) && run.s.written == old(run.s.written)
      ensures Did(t) == old(Did(t))
    {
      hide IsRun, Did;
      Step(t, At(run.s, t, Idle));
    }

    method LoadIndices(ghost msg: Value, ghost t: nat) returns (rw: nat, ghost r: nat, full: bool)
      requires Ready(t, Loading(msg)) && buf.Length > 0
      modifies this, buf
      ensures Ready(t, if full then Returned(false) else Reserving(msg, rw, r)) && Grew(old(run), run)
      ensures full ==> reserveWriteIndex - readIndex == buf.Length
      ensures budget <= old(budget) && (!full && budget == old(budget) ==> reserveWriteIndex == rw)
      ensures old(run.s.reserved) <= run.s.reserved && old(run.s.commit) <= run.s.commit
      ensures Did(t) == old(Did(t)) + if full then [Refused] else []
    {
      hide IsRun, Others, Moves, Continues, Valid, Did;
      Interfere(Producer(t), Loading(msg), Resting);
      rw := LoadReserveIndex(t, msg);
      Interfere(Producer(t), LoadingRead(msg, rw), Resting);
      var r', full' := LoadReadIndex(t, msg, rw);
      r, full := r', full';
    }

    /** One turn of the outer loop; `again` when the reservation failed. */
    method TryPush(msg: Value, ghost t: nat) returns (again: bool, ok: bool, ghost own: nat, ghost c: nat)
      requires Ready(t, Loading(msg)) && buf.Length > 0
      modifies this, buf
      ensures Ready(t, if again then Loading(msg) else Returned(ok)) && Grew(old(run), run)
      ensures old(run.s.reserved) <= run.s.reserved && (again ==> budget < old(budget))
      ensures !again && ok ==> run.s.commit > old(run.s.commit) && Pushed(|old(run.s.reserved)|, msg, t)
      ensures old(run.s.commit) <= run.s.commit
      ensures !again && !ok ==> reserveWriteIndex - readIndex == buf.Length
      ensures Did(t) == old(Did(t)) + if again then [] else if ok then [Reserved(msg, own), Wrote(own), Committed(c)] else [Refused]
    {
      hide IsRun, Others, Moves, Continues, Valid, Filled, Did;
      var rw, full;
      ghost var r;
      rw, r, full := LoadIndices(msg, t);
      own, c := 0, 0;
      if full { return false, false, 0, 0; }
      Interfere(Producer(t), Reserving(msg, rw, r), Resting);
      ok := CasReserve(t, msg, rw, r);
      again := !ok;
      if ok {
        assert run.s.reserved[rw] == msg;
        own := rw;
        c := Publish(t, msg, rw);
        assert run.s.reserved[rw] == msg;
      }
    }

    /** `push`: the message has an index and fills its slot, and some index has been committed; or the ring
        was full. */
    method Push(msg: Value, ghost t: nat) returns (ok: bool, ghost own: nat, ghost c: nat)
      requires Ready(t, Idle) && buf.Length > 0
      modifies this, buf
      ensures Ready(t, Idle) && Grew(old(run), run)
      ensures ok ==> run.s.commit > old(run.s.commit) && Pushed(|old(run.s.reserved)|, msg, t)
      ensures !ok ==> reserveWriteIndex - readIndex == buf.Length
      ensures Did(t) == old(Did(t)) + if ok then [Reserved(msg, own), Wrote(own), Committed(c)] else [Refused]
    {
      hide IsRun, Others, Moves, Continues, Did;
      Enter(t, msg);
      while true
        invariant Ready(t, Loading(msg)) && Grew(old(run), run) && Did(t) == old(Did(t))
        invariant old(run.s.reserved) <= run.s.reserved && old(run.s.commit) <= run.s.commit
        decreases budget
      {
        var again;
        again, ok, own, c := TryPush(msg, t);
        if !again {
          Leave(t, ok);
          return ok, own, c;
        }
      }
    }

    ghost method Take(s': State)
      requires IsRun(run) && PopNext(run.s, s')
      modifies this`run
      ensures IsRun(run) && run.s == s' && Grew(old(run), run)
    {
      CommitStep(s');
    }

    method LoadCommitIndex(r: nat) returns (empty: bool)
      requires Popping(LoadingCommit(r))
      modifies this`run
      ensures Popping(if empty then Resting else Taking(r)) && Grew(old(run), run)
      ensures empty <==> commitWriteIndex == r
      ensures run.s.popped == old(run.s.popped)
    {
      hide IsRun, Did;
      empty := commitWriteIndex == r;
      Take(run.s.(consumer := if empty then Resting else Taking(r)));
    }

    method CopySlot(r: nat) returns (msg: Value)
      requires Popping(Taking(r)) && buf.Length > 0
      modifies this`run
      ensures Popping(Releasing(r, msg)) && Grew(old(run), run) && run.s.popped == old(run.s.popped)
    {
      hide IsRun, Wrap, Did;
      msg := buf[Wrap(r, buf.Length)];
      Take(run.s.(consumer := Releasing(r, msg)));
    }

    method StoreReadIndex(r: nat, ghost msg: Value)
      requires Popping(Releasing(r, msg))
      modifies this
      ensures Popping(Resting) && Grew(old(run), run) && run.s.popped == old(run.s.popped) + [msg] && readIndex == r + 1
    {
      hide IsRun, Did;
      readIndex := r + 1;
      Take(run.s.(consumer := Resting, read := r + 1, popped := run.s.popped + [msg]));
    }

    /** `pop`: the next message, if any was committed.  If every index was committed after its slot was
        written, it is the message reserved for the index read. */
    method Pop() returns (result: Option<Value>)
      requires Popping(Resting) && buf.Length > 0
      modifies this, buf
      ensures Popping(Resting) && Grew(old(run), run)
      ensures run.s.popped == old(run.s.popped) + if result.Some? then [result.value] else []
      ensures readIndex == old(readIndex) + if result.Some? then 1 else 0
      ensures result.None? ==> commitWriteIndex == readIndex
      ensures result.Some? && Disciplined(run) ==>
                old(readIndex) < |run.s.reserved| && result.value == run.s.reserved[old(readIndex)]
    {
      hide IsRun, Others, Moves, Continues, Disciplined, Did;
      var r := readIndex;
      Take(run.s.(consumer := LoadingCommit(r)));
      Interfere(Popper, Idle, LoadingCommit(r));
      var empty := LoadCommitIndex(r);
      if empty { return None; }
      Interfere(Popper, Idle, Taking(r));
      var msg := CopySlot(r);
      Interfere(Popper, Idle, Releasing(r, msg));
      StoreReadIndex(r, msg);
      Popped(run);
      result := Some(msg);
    }
  }

  lemma Popped(run: Run<State>)
    requires IsRun(run) && run.s.read > 0
    ensures |run.s.popped| == run.s.read
    ensures Disciplined(run) ==> run.s.read <= |run.s.reserved| && run.s.popped[run.s.read - 1] == run.s.reserved[run.s.read - 1]
  {
    hide IsRun, Disciplined;
    RunInv(run);
    if Disciplined(run) {
      FirstInFirstOut(run);
    }
  }
}

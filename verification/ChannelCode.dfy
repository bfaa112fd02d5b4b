/** The methods of the buffered channel, run by one thread `t` while other threads interfere.  Between two
    points where a method gives the mutex up, it makes one step of the transition system. */
module ChannelCode {
  import opened Counting
  import opened Runs
  import opened ChannelModel

  /** `later` continues `run` with steps of threads other than `t`, or spurious wakeups of `t`. */
  ghost predicate Others(run: Run<State>, later: Run<State>, t: nat) {
    later == run || (later.Then? && Others(run, later.before, t) && StepOfOther(later.before.s, later.s, t))
  }

  ghost predicate StepOfOther(s: State, s': State, t: nat) {
    Spurious(s, s', t) || exists u :: u != t && Next(s, s', u)
  }

  /** A thread stays where it is, but it may be woken. */
  predicate Waits(pc: PC, pc': PC) {
    pc' == pc || pc' == WakeReceiver(WakeSender(pc))
  }

  /** How a call of a thread ended, and what it sent. */
  datatype Act = Ended(r: Result, sent: seq<Value>)

  function ActOf(s: State, s': State, t: nat): seq<Act> {
    if t < |s.threads| && t < |s'.threads| && !s.threads[t].Returned? && s'.threads[t].Returned? then
      [Ended(s'.threads[t].r, if |s.sent| <= |s'.sent| then s'.sent[|s.sent|..] else [])]
    else
      []
  }

  function Acts(run: Run<State>, t: nat): seq<Act> {
    match run
    case Start(_) => []
    case Then(before, s) => Acts(before, t) + ActOf(before.s, s, t)
  }

  lemma WaitsNext(s: State, s': State, t: nat)
    requires StepOfOther(s, s', t) && t < |s.threads|
    ensures |s'.threads| == |s.threads| && Waits(s.threads[t], s'.threads[t]) && s'.capacity == s.capacity
  {
    hide IsRun;
  }

  lemma {:induction false} OthersWait(run: Run<State>, later: Run<State>, t: nat)
    requires IsRun(run) && Others(run, later, t) && t < |run.s.threads|
    ensures IsRun(later) && |later.s.threads| == |run.s.threads| && Waits(run.s.threads[t], later.s.threads[t])
    ensures later.s.capacity == run.s.capacity && Acts(later, t) == Acts(run, t)
    decreases later
  {
    hide StepOfOther, Next;
    if later != run {
      OthersWait(run, later.before, t);
      WaitsNext(later.before.s, later.s, t);
      SomeStep(later.before.s, later.s, t);
    }
  }

  lemma SomeStep(s: State, s': State, t: nat)
    requires StepOfOther(s, s', t)
    ensures exists u :: Next(s, s', u)
  {
    if Spurious(s, s', t) {
      assert Next(s, s', t);
    }
  }

  lemma GrewHistory(run: Run<State>, later: Run<State>)
    requires IsRun(later) && Grew(run, later)
    ensures run.s.sent <= later.s.sent && run.s.received <= later.s.received && (run.s.closed ==> later.s.closed)
  {
    assert Continues(run, run);
    HistoryGrows(run, later);
  }

  lemma Drained(run: Run<State>)
    requires IsRun(run) && run.s.queue == []
    ensures run.s.received == run.s.sent
  {
    hide IsRun;
    FirstInFirstOut(run);
    assert run.s.received + [] == run.s.received;
  }

  class Channel {
    const capacity: nat
    var queue: seq<Value>
    var closed: bool
    ghost var run: Run<State>
    ghost var wakeups: nat                 // how often a thread is still woken

    /** Thread `t` is at `pc`. */
    ghost predicate Ready(t: nat, pc: PC)
      reads this
    {
      && IsRun(run) && run.s.capacity == capacity && run.s.queue == queue && run.s.closed == closed
      && t < |run.s.threads| && run.s.threads[t] == pc
    }

    /** How the calls of thread `t` have ended so far. */
    ghost function Did(t: nat): seq<Act>
      reads this`run
    {
      Acts(run, t)
    }

    constructor (capacity: nat, ghost threads: nat)
      requires capacity > 0
      ensures this.capacity == capacity && forall t :: 0 <= t < threads ==> Ready(t, Idle)
    {
      this.capacity := capacity;
      queue, closed := [], false;
      run := Start(State(capacity, [], false, seq(threads, _ => Idle), [], []));
    }

    ghost method Commit(t: nat, s': State)
      requires IsRun(run) && Next(run.s, s', t)
      modifies this`run
      ensures IsRun(run) && run.s == s' && Grew(old(run), run)
      ensures Did(t) == old(Did(t)) + ActOf(old(run.s), s', t)
    {
      run := Then(run, s');
    }

    /** Other threads run for any finite number of steps, with the mutex given up by `t`. */
    method Interfere(ghost t: nat, ghost pc: PC)
      requires Ready(t, pc) && !pc.SendAsleep? && !pc.ReceiveAsleep?
      modifies this
      ensures Ready(t, pc) && Others(old(run), run, t) && Grew(old(run), run) && wakeups <= old(wakeups)
      ensures Did(t) == old(Did(t))
    {
      OthersWait(run, run, t);
    }

    /** The thread sleeps on its condition until it is woken, or others pause. */
    method Sleep(ghost t: nat, ghost pc: PC) returns (woken: bool)
      requires Ready(t, pc) && (pc.SendAsleep? || pc.ReceiveAsleep?)
      modifies this
      ensures Ready(t, if woken then WakeReceiver(WakeSender(pc)) else pc) && Others(old(run), run, t) && Grew(old(run), run)
      ensures wakeups <= old(wakeups) && (woken ==> wakeups < old(wakeups))
      ensures Did(t) == old(Did(t))
    {
      OthersWait(run, run, t);
      woken := false;
    }

    ghost method Call(t: nat, pc: PC)
      requires Ready(t, Idle) && (pc.Sending? || pc.Receiving?)
      modifies this`run
      ensures Ready(t, pc) && Grew(old(run), run)
      ensures Did(t) == old(Did(t))
    {
      hide IsRun, Did;
      Commit(t, At(run.s, t, pc));
    }

    ghost method Return(t: nat, r: Result)
      requires Ready(t, Returned(r))
      modifies this`run
      ensures Ready(t, Idle) && Grew(old(run), run)
      ensures run.s.sent == old(run.s.sent) && run.s.received == old(run.s.received)
      ensures Did(t) == old(Did(t))
    {
      hide IsRun, Did;
      Commit(t, At(run.s, t, Idle));
    }

    /** Append the value and notify one receiver; the thread is in `send` or in `try_send`. */
    method PushValue(v: Value, ghost t: nat, ghost pc: PC)
      requires Ready(t, pc) && !closed && |queue| < capacity && (pc == Idle || pc == Sending(v) || pc == SendWoken(v))
      modifies this
      ensures Ready(t, Returned(Sent)) && Grew(old(run), run) && queue == old(queue) + [v]
      ensures run.s.sent == old(run.s.sent) + [v]
      ensures Did(t) == old(Did(t)) + [Ended(Sent, [v])]
    {
      hide IsRun, NotifyReceiver, Did;
      ghost var threads := NotifyOneReceiver(run.s.threads[t := Returned(Sent)]);
      ghost var s' := run.s.(queue := queue + [v], sent := run.s.sent + [v], threads := threads);
      assert ChannelModel.Push(run.s, s', t, v);
      assert pc == Idle ==> ChannelModel.TrySend(run.s, s', t, v);
      queue := queue + [v];
      Commit(t, s');
    }

    /** Take the front and notify one sender; the thread is in `receive` or in `try_receive`. */
    method PopValue(ghost t: nat, ghost pc: PC) returns (v: Value)
      requires Ready(t, pc) && queue != [] && (pc == Idle || pc == Receiving || pc == ReceiveWoken)
      modifies this
      ensures Ready(t, Returned(Got(v))) && Grew(old(run), run) && old(queue) == [v] + queue
      ensures run.s.received == old(run.s.received) + [v]
      ensures Did(t) == old(Did(t)) + [Ended(Got(v), [])]
    {
      hide IsRun, NotifySender, Did;
      v := queue[0];
      ghost var threads := NotifyOneSender(run.s.threads[t := Returned(Got(v))]);
      ghost var s' := run.s.(queue := queue[1..], received := run.s.received + [v], threads := threads);
      assert Pop(run.s, s', t);
      assert s'.sent[|run.s.sent|..] == [];
      assert s'.threads[t] == Returned(Got(v)) && ActOf(run.s, s', t) == [Ended(Got(v), [])];
      queue := queue[1..];
      Commit(t, s');
    }

    ghost method Refuse(t: nat, pc: PC, v: Value)
      requires Ready(t, pc)
      requires ((pc.Sending? || pc.SendWoken?) && closed) || (pc == Idle && (closed || |queue| >= capacity))
      modifies this`run
      ensures Ready(t, Returned(Refused)) && Grew(old(run), run)
      ensures Did(t) == old(Did(t)) + [Ended(Refused, [])]
    {
      hide IsRun, Did;
      ghost var s' := At(run.s, t, Returned(Refused));
      assert pc == Idle ==> ChannelModel.TrySend(run.s, s', t, v);
      assert s'.sent[|run.s.sent|..] == [];
      Commit(t, s');
    }

    ghost method FallAsleep(t: nat, pc: PC, pc': PC)
      requires Ready(t, pc) && !closed
      requires ((pc.Sending? || pc.SendWoken?) && |queue| >= capacity && pc' == SendAsleep(pc.v))
               || ((pc == Receiving || pc == ReceiveWoken) && queue == [] && pc' == ReceiveAsleep)
      modifies this`run
      ensures Ready(t, pc') && Grew(old(run), run)
      ensures Did(t) == old(Did(t))
    {
      hide IsRun, Did;
      Commit(t, At(run.s, t, pc'));
    }

    /** `send`: the value is sent, or the channel is closed (the exception), or the thread sleeps. */
    method Send(v: Value, ghost t: nat) returns (r: Result, asleep: bool)
      requires Ready(t, Idle)
      modifies this
      ensures Ready(t, if asleep then SendAsleep(v) else Idle) && Grew(old(run), run)
      ensures !asleep ==> r == Sent || r == Refused
      ensures !asleep && r == Refused ==> closed
      ensures !asleep && r == Sent ==> exists i :: |old(run.s.sent)| <= i < |run.s.sent| && run.s.sent[i] == v
      ensures Did(t) == old(Did(t)) + if asleep then [] else [Ended(r, if r == Sent then [v] else [])]
      ensures asleep ==> !closed && capacity - |queue| <= Sum(run.s.threads, SW)
    {
      hide IsRun, Continues, Others, Did;
      Call(t, Sending(v));
      ghost var pc := Sending(v);
      Interfere(t, pc);
      asleep := false;
      while !(|queue| < capacity || closed)
        invariant Ready(t, pc) && (pc == Sending(v) || pc == SendWoken(v)) && Grew(old(run), run)
        invariant Did(t) == old(Did(t))
        decreases wakeups
      {
        FallAsleep(t, pc, SendAsleep(v));
        var woken := Sleep(t, SendAsleep(v));
        if !woken {
          NoLostWakeup(run, t);
          return Refused, true;
        }
        pc := SendWoken(v);
      }
      if closed {
        Refuse(t, pc, v);
        r := Refused;
      } else {
        GrewHistory(old(run), run);
        PushValue(v, t, pc);
        r := Sent;
        assert run.s.sent[|run.s.sent| - 1] == v;
      }
      Return(t, r);
    }

    /** `try_send` never sleeps; it fails exactly when the channel is closed or full. */
    method TrySend(v: Value, ghost t: nat) returns (ok: bool)
      requires Ready(t, Idle)
      modifies this
      ensures Ready(t, Idle) && Grew(old(run), run)
      ensures ok ==> queue != [] && queue[|queue| - 1] == v && run.s.sent != [] && run.s.sent[|run.s.sent| - 1] == v
      ensures !ok ==> closed || |queue| >= capacity
      ensures Did(t) == old(Did(t)) + [if ok then Ended(Sent, [v]) else Ended(Refused, [])]
    {
      hide IsRun, Continues, Others, Did;
      Interfere(t, Idle);
      ok := !(closed || |queue| >= capacity);
      if ok {
        PushValue(v, t, Idle);
        Return(t, Sent);
      } else {
        Refuse(t, Idle, v);
        Return(t, Refused);
      }
    }

    /** `receive`: a value, or nothing when the channel is closed and drained, or the thread sleeps. */
    method Receive(ghost t: nat) returns (r: Result, asleep: bool)
      requires Ready(t, Idle)
      modifies this
      ensures Ready(t, if asleep then ReceiveAsleep else Idle) && Grew(old(run), run)
      ensures !asleep ==> r.Got? || r == Nothing
      ensures !asleep && r == Nothing ==> closed && run.s.received == run.s.sent
      ensures !asleep && r.Got? ==>
                exists i :: |old(run.s.received)| <= i < |run.s.received| && run.s.received[i] == r.value
      ensures Did(t) == old(Did(t)) + if asleep then [] else [Ended(r, [])]
      ensures asleep ==> !closed && |queue| <= Sum(run.s.threads, RW)
    {
      hide IsRun, Continues, Others, Did;
      Call(t, Receiving);
      ghost var pc := Receiving;
      Interfere(t, pc);
      asleep := false;
      while !(queue != [] || closed)
        invariant Ready(t, pc) && (pc == Receiving || pc == ReceiveWoken) && Grew(old(run), run)
        invariant Did(t) == old(Did(t))
        decreases wakeups
      {
        FallAsleep(t, pc, ReceiveAsleep);
        var woken := Sleep(t, ReceiveAsleep);
        if !woken {
          NoLostWakeup(run, t);
          return Nothing, true;
        }
        pc := ReceiveWoken;
      }
      if queue == [] {
        Drained(run);
        Leave(t, pc);
        r := Nothing;
      } else {
        GrewHistory(old(run), run);
        var v := PopValue(t, pc);
        r := Got(v);
        assert run.s.received[|run.s.received| - 1] == v;
      }
      Return(t, r);
    }

    ghost method Leave(t: nat, pc: PC)
      requires Ready(t, pc) && queue == [] && (pc == Idle || ((pc == Receiving || pc == ReceiveWoken) && closed))
      modifies this`run
      ensures Ready(t, Returned(Nothing)) && Grew(old(run), run)
      ensures run.s.sent == old(run.s.sent) && run.s.received == old(run.s.received)
      ensures Did(t) == old(Did(t)) + [Ended(Nothing, [])]
    {
      hide IsRun, Did;
      assert run.s.sent[|run.s.sent|..] == [];
      Commit(t, At(run.s, t, Returned(Nothing)));
    }

    /** `try_receive` never sleeps; it finds nothing exactly when the queue is empty. */
    method TryReceive(ghost t: nat) returns (r: Result)
      requires Ready(t, Idle)
      modifies this
      ensures Ready(t, Idle) && Grew(old(run), run)
      ensures r.Got? || (r == Nothing && queue == [] && run.s.received == run.s.sent)
      ensures r.Got? ==> run.s.received != [] && run.s.received[|run.s.received| - 1] == r.value
      ensures Did(t) == old(Did(t)) + [Ended(r, [])]
    {
      hide IsRun, Continues, Others, Did;
      Interfere(t, Idle);
      if queue == [] {
        Drained(run);
        Leave(t, Idle);
        r := Nothing;
      } else {
        var v := PopValue(t, Idle);
        r := Got(v);
      }
      Return(t, r);
    }

    /** `close` leaves the queue as it is, and nobody asleep. */
    method Close(ghost t: nat)
      requires Ready(t, Idle)
      modifies this
      ensures Ready(t, Idle) && Grew(old(run), run) && closed
      ensures forall u :: 0 <= u < |run.s.threads| ==> !run.s.threads[u].SendAsleep? && !run.s.threads[u].ReceiveAsleep?
      ensures Did(t) == old(Did(t)) + [Ended(Done, [])]
    {
      hide IsRun, Continues, Others, Did;
      Interfere(t, Idle);
      closed := true;
      ghost var threads := run.s.threads;
      ghost var s' := run.s.(closed := true, threads := seq(|threads|, u requires 0 <= u < |threads| =>
                               if u == t then Returned(Done) else WakeReceiver(WakeSender(threads[u]))));
      assert s'.sent[|run.s.sent|..] == [] && ActOf(run.s, s', t) == [Ended(Done, [])];
      Commit(t, s');
      Return(t, Done);
      forall u | 0 <= u < |run.s.threads| ensures !run.s.threads[u].SendAsleep? && !run.s.threads[u].ReceiveAsleep? {
        NoLostWakeup(run, u);
      }
    }
  }
}

/** The buffered channel: a queue behind a mutex, with one condition variable for senders and one for
    receivers.  What runs under the mutex without waiting is one transition; a wait on a condition
    variable gives the mutex up, and a thread that is woken enters again and tests its condition. */
module ChannelModel {
  import opened Runs
  import opened Counting

  type Value(==, !new)

  datatype Result = Sent | Refused | Got(value: Value) | Nothing | Done

  datatype PC =
    | Idle
    | Sending(v: Value)       // about to test the condition of `send`, at first or after a wakeup
    | SendAsleep(v: Value)
    | SendWoken(v: Value)
    | Receiving
    | ReceiveAsleep
    | ReceiveWoken
    | Returned(r: Result)

  /** `sent` and `received` are history. */
  datatype State = State(capacity: nat, queue: seq<Value>, closed: bool, threads: seq<PC>,
                         sent: seq<Value>, received: seq<Value>)

  ghost predicate Init(s: State) {
    && s.capacity > 0 && s.queue == [] && !s.closed && s.sent == [] && s.received == []
    && forall t :: 0 <= t < |s.threads| ==> s.threads[t] == Idle
  }

  /* ----- condition variables ----- */

  function WakeReceiver(pc: PC): PC {
    if pc.ReceiveAsleep? then ReceiveWoken else pc
  }

  function WakeSender(pc: PC): PC {
    if pc.SendAsleep? then SendWoken(pc.v) else pc
  }

  /** `notify_one`: one thread that sleeps on the condition, if any, is woken. */
  ghost predicate NotifyReceiver(threads: seq<PC>, threads': seq<PC>) {
    if exists u :: 0 <= u < |threads| && threads[u].ReceiveAsleep? then
      exists u :: 0 <= u < |threads| && threads[u].ReceiveAsleep? && threads' == threads[u := WakeReceiver(threads[u])]
    else
      threads' == threads
  }

  ghost predicate NotifySender(threads: seq<PC>, threads': seq<PC>) {
    if exists u :: 0 <= u < |threads| && threads[u].SendAsleep? then
      exists u :: 0 <= u < |threads| && threads[u].SendAsleep? && threads' == threads[u := WakeSender(threads[u])]
    else
      threads' == threads
  }

  /* ----- the operations ----- */

  function At(s: State, t: nat, pc: PC): State
    requires t < |s.threads|
  {
    s.(threads := s.threads[t := pc])
  }

  ghost predicate Begin(s: State, s': State, t: nat) {
    && t < |s.threads| && s.threads[t] == Idle
    && (s' == At(s, t, Receiving)
        || (t < |s'.threads| && s'.threads[t].Sending? && s' == At(s, t, s'.threads[t])))
  }

  ghost predicate Return(s: State, s': State, t: nat) {
    t < |s.threads| && s.threads[t].Returned? && s' == At(s, t, Idle)
  }

  /** Push a value, then notify one receiver. */
  ghost predicate Push(s: State, s': State, t: nat, v: Value)
    requires t < |s.threads|
  {
    && NotifyReceiver(s.threads[t := Returned(Sent)], s'.threads)
    && s' == s.(queue := s.queue + [v], sent := s.sent + [v], threads := s'.threads)
  }

  /** Pop the front, then notify one sender. */
  ghost predicate Pop(s: State, s': State, t: nat)
    requires t < |s.threads| && s.queue != []
  {
    && NotifySender(s.threads[t := Returned(Got(s.queue[0]))], s'.threads)
    && s' == s.(queue := s.queue[1..], received := s.received + [s.queue[0]], threads := s'.threads)
  }

  /** `send`, from entering the mutex to returning, throwing or going to sleep. */
  ghost predicate Send(s: State, s': State, t: nat) {
    && t < |s.threads| && (s.threads[t].Sending? || s.threads[t].SendWoken?)
    && if s.closed then s' == At(s, t, Returned(Refused))
       else if |s.queue| < s.capacity then Push(s, s', t, s.threads[t].v)
       else s' == At(s, t, SendAsleep(s.threads[t].v))
  }

  ghost predicate TrySend(s: State, s': State, t: nat, v: Value) {
    && t < |s.threads| && s.threads[t] == Idle
    && if s.closed || |s.queue| >= s.capacity then s' == At(s, t, Returned(Refused)) else Push(s, s', t, v)
  }

  ghost predicate Receive(s: State, s': State, t: nat) {
    && t < |s.threads| && (s.threads[t].Receiving? || s.threads[t].ReceiveWoken?)
    && if s.queue != [] then Pop(s, s', t)
       else s' == At(s, t, if s.closed then Returned(Nothing) else ReceiveAsleep)
  }

  ghost predicate TryReceive(s: State, s': State, t: nat) {
    && t < |s.threads| && s.threads[t] == Idle
    && if s.queue != [] then Pop(s, s', t) else s' == At(s, t, Returned(Nothing))
  }

  /** `close` notifies all. */
  ghost predicate Close(s: State, s': State, t: nat) {
    && t < |s.threads| && s.threads[t] == Idle
    && s' == s.(closed := true, threads := seq(|s.threads|, u requires 0 <= u < |s.threads| =>
                  if u == t then Returned(Done) else WakeReceiver(WakeSender(s.threads[u]))))
  }

  /** A wakeup that nobody asked for. */
  ghost predicate Spurious(s: State, s': State, t: nat) {
    && t < |s.threads| && (s.threads[t].SendAsleep? || s.threads[t].ReceiveAsleep?)
    && s' == At(s, t, WakeReceiver(WakeSender(s.threads[t])))
  }

  ghost predicate Next(s: State, s': State, t: nat) {
    || Begin(s, s', t) || Return(s, s', t) || Send(s, s', t) || (exists v :: TrySend(s, s', t, v))
    || Receive(s, s', t) || TryReceive(s, s', t) || Close(s, s', t) || Spurious(s, s', t)
  }

  ghost predicate IsRun(run: Run<State>)
    decreases run, 0
  {
    match run
    case Start(s) => Init(s)
    case Then(before, s) => Extends(before, s)
  }

  /** One more transition at the end of a run. */
  ghost predicate Extends(before: Run<State>, s: State)
    decreases before, 1
  {
    IsRun(before) && exists t :: Next(before.s, s, t)
  }

  /* ----- the invariant ----- */

  function SA(pc: PC): nat { if pc.SendAsleep? then 1 else 0 }
  function SW(pc: PC): nat { if pc.SendWoken? then 1 else 0 }
  function RA(pc: PC): nat { if pc.ReceiveAsleep? then 1 else 0 }
  function RW(pc: PC): nat { if pc.ReceiveWoken? then 1 else 0 }

  /** How many senders and receivers sleep, and how many have been woken and not yet tested again. */
  datatype Tally = Tally(sendAsleep: nat, sendWoken: nat, receiveAsleep: nat, receiveWoken: nat)

  ghost function Total(threads: seq<PC>): Tally {
    Tally(Sum(threads, SA), Sum(threads, SW), Sum(threads, RA), Sum(threads, RW))
  }

  function Weight(pc: PC): Tally {
    Tally(SA(pc), SW(pc), RA(pc), RW(pc))
  }

  function Add(a: Tally, b: Tally): Tally {
    Tally(a.sendAsleep + b.sendAsleep, a.sendWoken + b.sendWoken,
          a.receiveAsleep + b.receiveAsleep, a.receiveWoken + b.receiveWoken)
  }

  lemma TotalUpdate(threads: seq<PC>, t: nat, pc: PC)
    requires t < |threads|
    ensures Add(Total(threads[t := pc]), Weight(threads[t])) == Add(Total(threads), Weight(pc))
  {
    SumUpdate(threads, t, pc, SA);
    SumUpdate(threads, t, pc, SW);
    SumUpdate(threads, t, pc, RA);
    SumUpdate(threads, t, pc, RW);
  }

  predicate Good(capacity: nat, queue: seq<Value>, closed: bool, n: Tally) {
    && |queue| <= capacity
    && (n.receiveAsleep > 0 ==> !closed && |queue| <= n.receiveWoken)
    && (n.sendAsleep > 0 ==> !closed && capacity - |queue| <= n.sendWoken)
  }

  ghost predicate Inv(s: State) {
    && s.capacity > 0 && s.sent == s.received + s.queue
    && Good(s.capacity, s.queue, s.closed, Total(s.threads))
  }

  /** What `notify_one` does to the tally. */
  lemma NotifyReceiverTally(threads: seq<PC>, threads': seq<PC>)
    requires NotifyReceiver(threads, threads')
    ensures var n, n' := Total(threads), Total(threads');
            n' == if n.receiveAsleep > 0 then n.(receiveAsleep := n.receiveAsleep - 1, receiveWoken := n.receiveWoken + 1) else n
  {
    if u :| 0 <= u < |threads| && threads[u].ReceiveAsleep? && threads' == threads[u := WakeReceiver(threads[u])] {
      TotalUpdate(threads, u, WakeReceiver(threads[u]));
      SumAtLeast(threads, u, RA);
    } else {
      SumZero(threads, RA);
    }
  }

  lemma NotifySenderTally(threads: seq<PC>, threads': seq<PC>)
    requires NotifySender(threads, threads')
    ensures var n, n' := Total(threads), Total(threads');
            n' == if n.sendAsleep > 0 then n.(sendAsleep := n.sendAsleep - 1, sendWoken := n.sendWoken + 1) else n
  {
    if u :| 0 <= u < |threads| && threads[u].SendAsleep? && threads' == threads[u := WakeSender(threads[u])] {
      TotalUpdate(threads, u, WakeSender(threads[u]));
      SumAtLeast(threads, u, SA);
    } else {
      SumZero(threads, SA);
    }
  }

  lemma PushInv(s: State, s': State, t: nat, v: Value)
    requires Inv(s) && t < |s.threads| && !s.closed && |s.queue| < s.capacity && Push(s, s', t, v)
    requires s.threads[t].Idle? || s.threads[t].Sending? || s.threads[t].SendWoken?
    ensures Inv(s')
  {
    TotalUpdate(s.threads, t, Returned(Sent));
    NotifyReceiverTally(s.threads[t := Returned(Sent)], s'.threads);
    hide Total, Push;
    assert s'.sent == s'.received + s'.queue;
  }

  lemma PopInv(s: State, s': State, t: nat)
    requires Inv(s) && t < |s.threads| && s.queue != [] && Pop(s, s', t)
    requires s.threads[t].Idle? || s.threads[t].Receiving? || s.threads[t].ReceiveWoken?
    ensures Inv(s')
  {
    var pc := Returned(Got(s.queue[0]));
    TotalUpdate(s.threads, t, pc);
    NotifySenderTally(s.threads[t := pc], s'.threads);
    hide Total, NotifySender;
    assert s'.sent == s'.received + s'.queue;
  }

  lemma CloseInv(s: State, s': State, t: nat)
    requires Inv(s) && Close(s, s', t)
    ensures Inv(s')
  {
    SumZero(s'.threads, SA);
    SumZero(s'.threads, RA);
  }

  /** A thread goes to sleep, is woken spuriously, or begins or ends an operation. */
  lemma MoveInv(s: State, s': State, t: nat)
    requires Inv(s) && t < |s.threads| && s'.threads != [] && t < |s'.threads| && s' == At(s, t, s'.threads[t])
    requires Next(s, s', t) && !Close(s, s', t)
    ensures Inv(s')
  {
    TotalUpdate(s.threads, t, s'.threads[t]);
    hide Total;
  }

  lemma InvNext(s: State, s': State, t: nat)
    requires Inv(s) && Next(s, s', t)
    ensures Inv(s')
  {
    if Close(s, s', t) {
      CloseInv(s, s', t);
    } else if s'.queue == s.queue {
      hide Inv;
      MoveInv(s, s', t);
    } else if |s'.queue| > |s.queue| {
      hide Inv;
      var v :| Push(s, s', t, v);
      PushInv(s, s', t, v);
    } else {
      hide Inv;
      PopInv(s, s', t);
    }
  }

  lemma {:induction false} RunInv(run: Run<State>)
    requires IsRun(run)
    ensures Inv(run.s)
  {
    hide Next, Inv;
    match run
    case Start(s) => InitInv(s);
    case Then(before, s) =>
      RunInv(before);
      var t :| Next(before.s, s, t);
      InvNext(before.s, s, t);
  }

  lemma InitInv(s: State)
    requires Init(s)
    ensures Inv(s)
  {
    SumZero(s.threads, SA);
    SumZero(s.threads, RA);
  }

  /* ----- what the channel promises ----- */

  /** The queue never holds more than `capacity` values, and what has been received, followed by what is
      queued, is what has been sent, in order. */
  lemma FirstInFirstOut(run: Run<State>)
    requires IsRun(run)
    ensures |run.s.queue| <= run.s.capacity
    ensures run.s.sent == run.s.received + run.s.queue
  {
    hide IsRun;
    RunInv(run);
  }

  /** No wakeup is lost: while a receiver sleeps the channel is open and there are no more values than
      receivers already woken; while a sender sleeps, no more free places than senders already woken. */
  lemma NoLostWakeup(run: Run<State>, t: nat)
    requires IsRun(run) && t < |run.s.threads|
    ensures run.s.threads[t].ReceiveAsleep? ==> !run.s.closed && |run.s.queue| <= Sum(run.s.threads, RW)
    ensures run.s.threads[t].SendAsleep? ==> !run.s.closed && run.s.capacity - |run.s.queue| <= Sum(run.s.threads, SW)
  {
    hide IsRun;
    RunInv(run);
    SumAtLeast(run.s.threads, t, RA);
    SumAtLeast(run.s.threads, t, SA);
  }

  /** A sleeping receiver beside a value, or a sleeping sender beside a free place, is not forgotten: some
      thread has been woken for it and can enter. */
  lemma WokenForIt(run: Run<State>, t: nat) returns (u: nat)
    requires IsRun(run) && t < |run.s.threads|
    requires (run.s.threads[t].ReceiveAsleep? && run.s.queue != [])
             || (run.s.threads[t].SendAsleep? && |run.s.queue| < run.s.capacity)
    ensures u < |run.s.threads|
    ensures run.s.threads[t].ReceiveAsleep? ==> run.s.threads[u].ReceiveWoken?
    ensures run.s.threads[t].SendAsleep? ==> run.s.threads[u].SendWoken?
  {
    hide IsRun;
    NoLostWakeup(run, t);
    if run.s.threads[t].ReceiveAsleep? {
      u := SumWitness(run.s.threads, RW);
    } else {
      u := SumWitness(run.s.threads, SW);
    }
  }

  /** A sender and a receiver never sleep while no thread is woken. */
  lemma NeverBothAsleep(run: Run<State>, t: nat, u: nat) returns (w: nat)
    requires IsRun(run) && t < |run.s.threads| && u < |run.s.threads|
    requires run.s.threads[t].ReceiveAsleep? && run.s.threads[u].SendAsleep?
    ensures w < |run.s.threads| && (run.s.threads[w].ReceiveWoken? || run.s.threads[w].SendWoken?)
  {
    hide IsRun;
    RunInv(run);
    if run.s.queue != [] {
      w := WokenForIt(run, t);
    } else {
      w := WokenForIt(run, u);
    }
  }

  /* ----- after close ----- */

  lemma HistoryNext(s: State, s': State, u: nat)
    requires Next(s, s', u)
    ensures s.sent <= s'.sent && s.received <= s'.received && (s.closed ==> s'.closed)
  {
  }

  lemma {:induction false} HistoryGrows(run: Run<State>, later: Run<State>)
    requires IsRun(later) && Continues(run, later)
    ensures run.s.sent <= later.s.sent && run.s.received <= later.s.received && (run.s.closed ==> later.s.closed)
    decreases later
  {
    hide Next;
    if later != run {
      HistoryGrows(run, later.before);
      var u :| Next(later.before.s, later.s, u);
      HistoryNext(later.before.s, later.s, u);
    }
  }

  /** `notify_one` has a thread to wake, or none is asleep. */
  lemma NotifyOneReceiver(threads: seq<PC>) returns (threads': seq<PC>)
    ensures NotifyReceiver(threads, threads') && |threads'| == |threads|
    ensures forall t :: 0 <= t < |threads| && !threads[t].ReceiveAsleep? ==> threads'[t] == threads[t]
  {
    threads' := threads;
    if u :| 0 <= u < |threads| && threads[u].ReceiveAsleep? {
      threads' := threads[u := WakeReceiver(threads[u])];
    }
  }

  lemma NotifyOneSender(threads: seq<PC>) returns (threads': seq<PC>)
    ensures NotifySender(threads, threads') && |threads'| == |threads|
    ensures forall t :: 0 <= t < |threads| && !threads[t].SendAsleep? ==> threads'[t] == threads[t]
  {
    threads' := threads;
    if u :| 0 <= u < |threads| && threads[u].SendAsleep? {
      threads' := threads[u := WakeSender(threads[u])];
    }
  }

  lemma ClosedNext(s: State, s': State, t: nat)
    requires Next(s, s', t) && s.closed
    ensures s'.closed && s'.sent == s.sent
  {
  }

  lemma {:induction false} ClosedStays(run: Run<State>, later: Run<State>)
    requires IsRun(later) && Continues(run, later) && run.s.closed
    ensures later.s.closed && later.s.sent == run.s.sent
    decreases later
  {
    hide Next;
    if later != run {
      assert IsRun(later.before);
      ClosedStays(run, later.before);
      var t :| Next(later.before.s, later.s, t);
      ClosedNext(later.before.s, later.s, t);
    }
  }

  /** However a closed channel goes on, nothing more is sent, what is received grows along what was sent, and
      nobody is asleep. */
  lemma {:induction false} CloseDrains(run: Run<State>, later: Run<State>)
    requires IsRun(run) && IsRun(later) && Continues(run, later) && run.s.closed
    ensures later.s.closed && later.s.sent == run.s.sent
    ensures run.s.received <= later.s.received <= run.s.sent
    ensures forall t :: 0 <= t < |later.s.threads| ==>
              !later.s.threads[t].SendAsleep? && !later.s.threads[t].ReceiveAsleep?
  {
    hide IsRun;
    ClosedStays(run, later);
    HistoryGrows(run, later);
    FirstInFirstOut(later);
    forall t | 0 <= t < |later.s.threads|
      ensures !later.s.threads[t].SendAsleep? && !later.s.threads[t].ReceiveAsleep?
    {
      NoLostWakeup(later, t);
    }
  }

  predicate InCall(pc: PC) {
    pc.Sending? || pc.SendWoken? || pc.Receiving? || pc.ReceiveWoken?
  }

  /** How a call ends once the channel is closed: `send` throws, `receive` takes the front or finds nothing. */
  function Outcome(s: State, pc: PC): Result {
    if pc.Sending? || pc.SendWoken? then Refused
    else if s.queue != [] then Got(s.queue[0])
    else Nothing
  }

  lemma OutcomeOfStep(s: State, s': State, t: nat)
    requires Next(s, s', t) && s.closed && t < |s.threads| && InCall(s.threads[t])
    ensures t < |s'.threads| && s'.threads[t] == Returned(Outcome(s, s.threads[t]))
  {
  }

  /** Every call in progress on a closed channel has a step and returns with it; `receive` finds nothing only
      when everything sent has been received. */
  lemma {:induction false} ClosedCallsReturn(run: Run<State>, t: nat) returns (s': State)
    requires IsRun(run) && run.s.closed && t < |run.s.threads| && InCall(run.s.threads[t])
    ensures Next(run.s, s', t)
    ensures forall u: State :: Next(run.s, u, t) ==>
              t < |u.threads| && u.threads[t] == Returned(Outcome(run.s, run.s.threads[t]))
    ensures run.s.threads[t].Receiving? || run.s.threads[t].ReceiveWoken? ==>
              (Outcome(run.s, run.s.threads[t]) == Nothing <==> run.s.received == run.s.sent)
  {
    hide IsRun;
    var s := run.s;
    FirstInFirstOut(run);
    var r := Outcome(s, s.threads[t]);
    if r.Got? {
      var threads := NotifyOneSender(s.threads[t := Returned(r)]);
      s' := s.(queue := s.queue[1..], received := s.received + [s.queue[0]], threads := threads);
      assert Receive(s, s', t);
    } else {
      s' := At(s, t, Returned(r));
    }
    forall u: State | Next(s, u, t) ensures t < |u.threads| && u.threads[t] == Returned(r) {
      OutcomeOfStep(s, u, t);
    }
  }
}

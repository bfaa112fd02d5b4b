/** The multiple-producer, single-consumer ring queue: producers reserve an index with one
    compare-exchange, write the slot and commit with another.  One transition for each atomic access and
    each access of a slot; a weak compare-exchange may fail without reason. */
module MpscModel {
  import opened Counting
  import opened Modular
  import opened Runs

  type Value(==, !new)

  datatype PC =
    | Idle
    | Loading(msg: Value)
    | LoadingRead(msg: Value, rw: nat)
    | Reserving(msg: Value, rw: nat, r: nat)
    | Writing(msg: Value, rw: nat)
    | Committing(own: nat, rw: nat)     // `own`, the index reserved, is history: a failed exchange overwrites rw
    | Returned(ok: bool)

  datatype Consumer =
    | Resting
    | LoadingCommit(r: nat)
    | Taking(r: nat)
    | Releasing(r: nat, msg: Value)

  /** For every reserved index `reserved` has its message, `owner` its producer, and `written` tells
      whether the producer has filled the slot; with `popped` these are history. */
  datatype State = State(buf: seq<Value>, read: nat, commit: nat, reserve: nat, producers: seq<PC>, consumer: Consumer,
                         reserved: seq<Value>, owner: seq<nat>, written: seq<bool>, popped: seq<Value>)

  ghost predicate Init(s: State) {
    && |s.buf| > 0 && s.read == s.commit == s.reserve == 0 && s.consumer == Resting
    && s.reserved == [] && s.owner == [] && s.written == [] && s.popped == []
    && forall t :: 0 <= t < |s.producers| ==> s.producers[t] == Idle
  }

  function Slot(s: State, k: nat): nat
    requires |s.buf| > 0
  {
    Wrap(k, |s.buf|)
  }

  function At(s: State, t: nat, pc: PC): State
    requires t < |s.producers|
  {
    s.(producers := s.producers[t := pc])
  }

  ghost predicate Is(s: State, t: nat) {
    t < |s.producers| && |s.buf| > 0
  }

  /* ----- push ----- */

  ghost predicate Begin(s: State, s': State, t: nat, msg: Value) {
    Is(s, t) && s.producers[t] == Idle && s' == At(s, t, Loading(msg))
  }

  ghost predicate LoadReserve(s: State, s': State, t: nat) {
    Is(s, t) && s.producers[t].Loading? && s' == At(s, t, LoadingRead(s.producers[t].msg, s.reserve))
  }

  ghost predicate LoadRead(s: State, s': State, t: nat) {
    && Is(s, t) && s.producers[t].LoadingRead?
    && var pc := s.producers[t];
       s' == At(s, t, if pc.rw - s.read == |s.buf| then Returned(false) else Reserving(pc.msg, pc.rw, s.read))
  }

  ghost predicate Reserve(s: State, s': State, t: nat) {
    && Is(s, t) && s.producers[t].Reserving? && s.producers[t].rw == s.reserve
    && var msg := s.producers[t].msg;
       s' == At(s, t, Writing(msg, s.reserve)).(reserve := s.reserve + 1, reserved := s.reserved + [msg],
                                                owner := s.owner + [t], written := s.written + [false])
  }

  ghost predicate ReserveFails(s: State, s': State, t: nat) {
    Is(s, t) && s.producers[t].Reserving? && s' == At(s, t, Loading(s.producers[t].msg))
  }

  ghost predicate WriteSlot(s: State, s': State, t: nat) {
    && Is(s, t) && s.producers[t].Writing? && s.producers[t].rw < |s.written|
    && var pc := s.producers[t];
       s' == At(s, t, Committing(pc.rw, pc.rw)).(buf := s.buf[Slot(s, pc.rw) := pc.msg], written := s.written[pc.rw := true])
  }

  ghost predicate Commit(s: State, s': State, t: nat) {
    && Is(s, t) && s.producers[t].Committing? && s.producers[t].rw == s.commit
    && s' == At(s, t, Returned(true)).(commit := s.commit + 1)
  }

  ghost predicate CommitFails(s: State, s': State, t: nat) {
    Is(s, t) && s.producers[t].Committing? && s' == At(s, t, s.producers[t].(rw := s.commit))
  }

  ghost predicate Return(s: State, s': State, t: nat) {
    Is(s, t) && s.producers[t].Returned? && s' == At(s, t, Idle)
  }

  /* ----- pop ----- */

  ghost predicate PopBegins(s: State, s': State) {
    s.consumer == Resting && s' == s.(consumer := LoadingCommit(s.read))
  }

  ghost predicate LoadCommit(s: State, s': State) {
    && s.consumer.LoadingCommit?
    && s' == s.(consumer := if s.commit == s.consumer.r then Resting else Taking(s.consumer.r))
  }

  ghost predicate TakeSlot(s: State, s': State) {
    && s.consumer.Taking? && |s.buf| > 0
    && s' == s.(consumer := Releasing(s.consumer.r, s.buf[Slot(s, s.consumer.r)]))
  }

  ghost predicate StoreRead(s: State, s': State) {
    && s.consumer.Releasing?
    && s' == s.(consumer := Resting, read := s.consumer.r + 1, popped := s.popped + [s.consumer.msg])
  }

  ghost predicate QuietNext(s: State, s': State, t: nat) {
    || (exists msg :: Begin(s, s', t, msg)) || LoadReserve(s, s', t) || LoadRead(s, s', t) || ReserveFails(s, s', t)
    || CommitFails(s, s', t) || Return(s, s', t)
  }

  ghost predicate PushNext(s: State, s': State, t: nat) {
    QuietNext(s, s', t) || Reserve(s, s', t) || WriteSlot(s, s', t) || Commit(s, s', t)
  }

  ghost predicate PopNext(s: State, s': State) {
    PopBegins(s, s') || LoadCommit(s, s') || TakeSlot(s, s') || StoreRead(s, s')
  }

  ghost predicate Steps(s: State, s': State) {
    PopNext(s, s') || exists t :: PushNext(s, s', t)
  }

  ghost predicate IsRun(run: Run<State>)
    decreases run, 0
  {
    match run
    case Start(s) => Init(s)
    case Then(before, s) => Extends(before, s)
  }

  /** One more transition at the end of a run. */
  ghost predicate Extends(before: Run<State>, s: State)
    decreases before, 1
  {
    IsRun(before) && Steps(before.s, s)
  }

  /* ----- the indices, on every run ----- */

  function InFlight(pc: PC): nat {
    if pc.Writing? || pc.Committing? then 1 else 0
  }

  ghost predicate IndicesOk(s: State) {
    && |s.buf| > 0
    && s.read <= s.commit <= s.reserve <= s.read + |s.buf|
    && s.reserve - s.commit == Sum(s.producers, InFlight)
    && |s.reserved| == |s.owner| == |s.written| == s.reserve && |s.popped| == s.read
  }

  ghost predicate ConsumerOk(s: State) {
    match s.consumer
    case Resting => true
    case LoadingCommit(r) => r == s.read
    case Taking(r) => r == s.read < s.commit
    case Releasing(r, _) => r == s.read < s.commit
  }

  /** What a producer has loaded is not newer than the indices, and what it holds is its own. */
  ghost predicate ProducerOk(s: State, t: nat)
    requires t < |s.producers|
  {
    match s.producers[t]
    case LoadingRead(_, rw) => rw <= s.reserve
    case Reserving(_, rw, r) => r <= s.read && rw - r < |s.buf|
    case Writing(msg, rw) =>
      rw < |s.reserved| == |s.owner| == |s.written| && s.owner[rw] == t && !s.written[rw] && s.reserved[rw] == msg
    case Committing(own, _) => own < |s.owner| == |s.written| && s.owner[own] == t && s.written[own]
    case _ => true
  }

  ghost predicate ProducersOk(s: State) {
    forall t :: 0 <= t < |s.producers| ==> ProducerOk(s, t)
  }

  ghost predicate Inv(s: State) {
    IndicesOk(s) && ConsumerOk(s) && ProducersOk(s)
  }

  lemma InitInv(s: State)
    requires Init(s)
    ensures Inv(s)
  {
    SumZero(s.producers, InFlight);
  }

  ghost predicate OnlyThread(s: State, s': State, t: nat) {
    && t < |s.producers| == |s'.producers| && |s'.buf| == |s.buf|
    && forall u :: 0 <= u < |s.producers| && u != t ==> s'.producers[u] == s.producers[u]
  }

  lemma QuietThread(s: State, s': State, t: nat)
    requires IndicesOk(s) && t < |s.producers| && ProducerOk(s, t) && QuietNext(s, s', t)
    ensures s' == At(s, t, s'.producers[t]) && ProducerOk(s', t)
    ensures InFlight(s'.producers[t]) == InFlight(s.producers[t])
  {
  }

  lemma QuietInv(s: State, s': State, t: nat)
    requires Inv(s) && QuietNext(s, s', t)
    ensures Inv(s')
  {
    assert ProducerOk(s, t);
    QuietThread(s, s', t);
    hide QuietNext;
    SumUpdate(s.producers, t, s'.producers[t], InFlight);
    forall u | 0 <= u < |s'.producers| ensures ProducerOk(s', u) {
      assert ProducerOk(s, u);
    }
  }

  lemma ReserveInv(s: State, s': State, t: nat)
    requires Inv(s) && Reserve(s, s', t)
    ensures Inv(s')
  {
    assert ProducerOk(s, t);
    SumUpdate(s.producers, t, s'.producers[t], InFlight);
    forall u | 0 <= u < |s'.producers| ensures ProducerOk(s', u) {
      assert ProducerOk(s, u);
    }
  }

  lemma WriteInv(s: State, s': State, t: nat)
    requires Inv(s) && WriteSlot(s, s', t)
    ensures Inv(s')
  {
    hide Wrap;
    assert ProducerOk(s, t);
    SumUpdate(s.producers, t, s'.producers[t], InFlight);
    forall u | 0 <= u < |s'.producers| ensures ProducerOk(s', u) {
      assert ProducerOk(s, u);
    }
  }

  lemma CommitInv(s: State, s': State, t: nat)
    requires Inv(s) && Commit(s, s', t)
    ensures Inv(s')
  {
    SumUpdate(s.producers, t, s'.producers[t], InFlight);
    forall u | 0 <= u < |s'.producers| ensures ProducerOk(s', u) {
      assert ProducerOk(s, u);
    }
  }

  lemma PopInv(s: State, s': State)
    requires Inv(s) && PopNext(s, s')
    ensures Inv(s')
  {
    hide Wrap;
    forall u | 0 <= u < |s'.producers| ensures ProducerOk(s', u) {
      assert ProducerOk(s, u);
    }
  }

  lemma InvNext(s: State, s': State)
    requires Inv(s) && Steps(s, s')
    ensures Inv(s')
  {
    if PopNext(s, s') {
      PopInv(s, s');
    } else {
      hide Inv;
      var t :| PushNext(s, s', t);
      if QuietNext(s, s', t) {
        QuietInv(s, s', t);
      } else if Reserve(s, s', t) {
        ReserveInv(s, s', t);
      } else if WriteSlot(s, s', t) {
        WriteInv(s, s', t);
      } else {
        CommitInv(s, s', t);
      }
    }
  }

  lemma {:induction false} RunInv(run: Run<State>)
    requires IsRun(run)
    ensures Inv(run.s)
  {
    hide Inv, Steps;
    match run
    case Start(s) => InitInv(s);
    case Then(before, s) =>
      RunInv(before);
      InvNext(before.s, s);
  }
}

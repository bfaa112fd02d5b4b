/** What the queue promises on every run, and exactly when it is first in, first out. */
module MpscTheorems {
  import opened Counting
  import opened Modular
  import opened MpscModel
  import opened Runs

  /** The order of the indices, and the producers between their two exchanges. */
  lemma {:induction false} Indices(run: Run<State>)
    requires IsRun(run)
    ensures var s := run.s;
            && s.read <= s.commit <= s.reserve <= s.read + |s.buf|
            && s.reserve - s.commit == Sum(s.producers, InFlight)
  {
    hide IsRun;
    RunInv(run);
  }

  /** `push` gives up only if every slot is reserved at the moment it loads readIndex, although it loaded
      reserveWriteIndex earlier. */
  lemma {:induction false} RefusedOnlyWhenFull(run: Run<State>, s': State, t: nat)
    requires IsRun(run) && LoadRead(run.s, s', t) && s'.producers[t] == Returned(false)
    ensures run.s.reserve - run.s.read == |run.s.buf|
  {
    hide IsRun;
    RunInv(run);
    assert ProducerOk(run.s, t);
  }

  /* ----- first in, first out ----- */

  ghost predicate CommitsWritten(s: State, s': State) {
    s'.commit > s.commit ==> s.commit < |s.written| && s.written[s.commit]
  }

  /** Every index was committed after its producer had written the slot. */
  ghost predicate Disciplined(run: Run<State>) {
    match run
    case Start(_) => true
    case Then(before, s) => Disciplined(before) && CommitsWritten(before.s, s)
  }

  /** Whoever commits an index has reserved it. */
  ghost predicate CommitsOwn(s: State, s': State) {
    s'.commit > s.commit ==>
      exists t :: 0 <= t < |s.producers| && s.producers[t] == Committing(s.commit, s.commit) && Commit(s, s', t)
  }

  ghost predicate OwnCommits(run: Run<State>) {
    match run
    case Start(_) => true
    case Then(before, s) => OwnCommits(before) && CommitsOwn(before.s, s)
  }

  lemma {:induction false} OwnIsDisciplined(run: Run<State>)
    requires IsRun(run) && OwnCommits(run)
    ensures Disciplined(run)
  {
    hide Steps;
    match run
    case Start(_) =>
    case Then(before, s) =>
      OwnIsDisciplined(before);
      RunInv(before);
      if s.commit > before.s.commit {
        var t :| 0 <= t < |before.s.producers| && before.s.producers[t] == Committing(before.s.commit, before.s.commit);
        assert ProducerOk(before.s, t);
      }
  }

  /** Unread slots hold their messages as soon as they are written; all committed ones are. */
  ghost predicate SlotsOk(s: State)
    requires |s.buf| > 0 && |s.reserved| == |s.written|
  {
    && (forall k :: s.read <= k < |s.written| && s.written[k] ==> Holds(s, k))
    && (forall k :: 0 <= k < s.commit <= |s.written| ==> s.written[k])
  }

  ghost predicate Holds(s: State, k: nat)
    requires |s.buf| > 0 && k < |s.reserved|
  {
    s.buf[Slot(s, k)] == s.reserved[k]
  }

  ghost predicate PoppedOk(s: State)
    requires s.read <= |s.reserved|
  {
    && s.popped == s.reserved[..s.read]
    && (s.consumer.Releasing? ==> s.consumer.r < |s.reserved| && s.consumer.msg == s.reserved[s.consumer.r])
  }

  ghost predicate DataOk(s: State) {
    IndicesOk(s) && SlotsOk(s) && PoppedOk(s)
  }

  lemma PushKeeps(s: State, s': State, t: nat)
    requires Inv(s) && DataOk(s) && (QuietNext(s, s', t) || Reserve(s, s', t) || Commit(s, s', t)) && Inv(s')
    requires CommitsWritten(s, s')
    ensures DataOk(s')
  {
    hide Wrap, ProducersOk, ConsumerOk;
    forall k | s'.read <= k < |s'.written| && s'.written[k] ensures Holds(s', k) {
      assert Holds(s, k);
    }
  }

  lemma WriteKeeps(s: State, s': State, t: nat)
    requires Inv(s) && DataOk(s) && WriteSlot(s, s', t) && Inv(s')
    ensures DataOk(s')
  {
    hide Wrap, ConsumerOk;
    assert ProducerOk(s, t);
    var rw := s.producers[t].rw;
    forall k | s'.read <= k < |s'.written| && s'.written[k] ensures Holds(s', k) {
      if k < rw {
        WrapDiffers(k, rw, |s.buf|);
      } else if rw < k {
        WrapDiffers(rw, k, |s.buf|);
      }
      assert k != rw ==> Holds(s, k);
    }
  }

  lemma PopKeeps(s: State, s': State)
    requires Inv(s) && DataOk(s) && PopNext(s, s') && Inv(s')
    ensures DataOk(s')
  {
    hide Wrap, ProducersOk;
    forall k | s'.read <= k < |s'.written| && s'.written[k] ensures Holds(s', k) {
      assert Holds(s, k);
    }
    if TakeSlot(s, s') {
      assert Holds(s, s.consumer.r);
    } else if StoreRead(s, s') {
      assert s.reserved[..s.read] + [s.reserved[s.read]] == s.reserved[..s.read + 1];
    }
  }

  lemma DataNext(s: State, s': State)
    requires Inv(s) && DataOk(s) && Steps(s, s') && CommitsWritten(s, s')
    ensures DataOk(s')
  {
    InvNext(s, s');
    hide Inv, DataOk;
    if PopNext(s, s') {
      PopKeeps(s, s');
    } else {
      var t :| PushNext(s, s', t);
      if WriteSlot(s, s', t) {
        WriteKeeps(s, s', t);
      } else {
        PushKeeps(s, s', t);
      }
    }
  }

  lemma {:induction false} DisciplinedData(run: Run<State>)
    requires IsRun(run) && Disciplined(run)
    ensures DataOk(run.s)
  {
    hide Steps, DataOk, CommitsWritten;
    match run
    case Start(s) => InitData(s);
    case Then(before, s) =>
      DisciplinedData(before);
      RunInv(before);
      DataNext(before.s, s);
  }

  lemma InitData(s: State)
    requires Init(s)
    ensures DataOk(s)
  {
    InitInv(s);
  }

  /** If every index is committed after its slot was written, in particular if every producer commits the
      index it reserved, `pop` yields each message once and in the order of reservation. */
  lemma {:induction false} FirstInFirstOut(run: Run<State>)
    requires IsRun(run) && (Disciplined(run) || OwnCommits(run))
    ensures run.s.read <= |run.s.reserved| && run.s.popped == run.s.reserved[..run.s.read]
  {
    hide IsRun, Disciplined, OwnCommits, SlotsOk;
    if !Disciplined(run) {
      OwnIsDisciplined(run);
    }
    DisciplinedData(run);
  }

  /** Then a producer about to write has a slot that no other index in use shares. */
  lemma {:induction false} SlotsDistinct(run: Run<State>, t: nat, j: nat)
    requires IsRun(run) && Disciplined(run) && t < |run.s.producers| && run.s.producers[t].Writing?
    requires run.s.read <= j < run.s.reserve && j != run.s.producers[t].rw && |run.s.buf| > 0
    ensures run.s.commit <= run.s.producers[t].rw < run.s.reserve
    ensures Slot(run.s, j) != Slot(run.s, run.s.producers[t].rw)
  {
    hide IsRun, Disciplined, Wrap, Holds, PoppedOk;
    RunInv(run);
    DisciplinedData(run);
    assert ProducerOk(run.s, t);
    var k := run.s.producers[t].rw;
    if j < k {
      WrapDiffers(j, k, |run.s.buf|);
    } else {
      WrapDiffers(k, j, |run.s.buf|);
    }
  }
}

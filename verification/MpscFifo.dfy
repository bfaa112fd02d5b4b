/** When the queue is first in, first out: exactly as long as no index is committed before its slot has
    been written. */
module MpscFifo {
  import opened Counting
  import opened Modular
  import opened MpscModel
  import opened MpscTheorems
  import opened Runs

  /** What has been popped is what was reserved, in the order of reservation. */
  predicate Fifo(s: State) {
    s.read <= |s.reserved| && s.popped == s.reserved[..s.read]
  }

  /** `later` continues `start`, and from there on every index is committed after its slot was written. */
  ghost predicate DisciplinedFrom(start: Run<State>, later: Run<State>) {
    later == start
    || (later.Then? && DisciplinedFrom(start, later.before) && CommitsWritten(later.before.s, later.s))
  }

  lemma {:induction false} DisciplinedOn(start: Run<State>, later: Run<State>)
    requires Disciplined(start) && DisciplinedFrom(start, later)
    ensures Disciplined(later)
    decreases later
  {
    if later != start {
      DisciplinedOn(start, later.before);
    }
  }

  /* ----- a slot not yet written belongs to a producer that is about to write it ----- */

  ghost predicate UnwrittenOk(s: State) {
    && |s.owner| == |s.written|
    && forall k :: 0 <= k < |s.written| && !s.written[k] ==>
         s.owner[k] < |s.producers| && s.producers[s.owner[k]].Writing? && s.producers[s.owner[k]].rw == k
  }

  lemma UnwrittenNext(s: State, s': State)
    requires Inv(s) && UnwrittenOk(s) && Steps(s, s')
    ensures UnwrittenOk(s')
  {
    hide Wrap, ProducersOk, ConsumerOk;
    if !PopNext(s, s') {
      var t :| PushNext(s, s', t);
      if QuietNext(s, s', t) {
      } else {
      }
    }
  }

  lemma {:induction false} UnwrittenRun(run: Run<State>)
    requires IsRun(run)
    ensures UnwrittenOk(run.s)
  {
    hide Steps, Inv;
    match run
    case Start(s) =>
    case Then(before, s) =>
      assert Extends(before, s);
      UnwrittenRun(before);
      RunInv(before);
      UnwrittenNext(before.s, s);
  }

  /* ----- the consumer alone, one producer alone ----- */

  /** A run under construction after `start`. */
  ghost predicate After(start: Run<State>, run: Run<State>) {
    IsRun(run) && DisciplinedFrom(start, run)
  }

  lemma {:induction false} Extend(start: Run<State>, run: Run<State>, s': State) returns (later: Run<State>)
    requires After(start, run) && Steps(run.s, s') && CommitsWritten(run.s, s')
    ensures After(start, later) && later.s == s'
  {
    later := Then(run, s');
  }

  lemma {:induction false} ExtendPush(start: Run<State>, run: Run<State>, s': State, t: nat) returns (later: Run<State>)
    requires After(start, run) && PushNext(run.s, s', t) && CommitsWritten(run.s, s')
    ensures After(start, later) && later.s == s'
  {
    assert Steps(run.s, s');
    later := Extend(start, run, s');
  }

  function ConsumerNext(s: State): State
    requires |s.buf| > 0
  {
    match s.consumer
    case Resting => s.(consumer := LoadingCommit(s.read))
    case LoadingCommit(r) => s.(consumer := if s.commit == r then Resting else Taking(r))
    case Taking(r) => s.(consumer := Releasing(r, s.buf[Slot(s, r)]))
    case Releasing(r, msg) => s.(consumer := Resting, read := r + 1, popped := s.popped + [msg])
  }

  function Stage(c: Consumer): nat {
    match c
    case Resting => 4
    case LoadingCommit(_) => 3
    case Taking(_) => 2
    case Releasing(_, _) => 1
  }

  /** Only the consumer has moved. */
  predicate OnlyPops(s: State, s': State) {
    s' == s.(read := s'.read, consumer := s'.consumer, popped := s'.popped)
  }

  lemma {:induction false} ConsumerStep(start: Run<State>, run: Run<State>) returns (later: Run<State>)
    requires After(start, run) && |run.s.buf| > 0
    ensures After(start, later) && later.s == ConsumerNext(run.s) && OnlyPops(run.s, later.s)
  {
    hide IsRun, DisciplinedFrom, Wrap;
    assert PopNext(run.s, ConsumerNext(run.s));
    later := Extend(start, run, ConsumerNext(run.s));
  }

  /** The consumer pops until index `k` is taken: it finds there what the slot holds now. */
  lemma {:induction false} Drain(start: Run<State>, run: Run<State>, k: nat) returns (later: Run<State>)
    requires After(start, run) && run.s.read <= k < run.s.commit && |run.s.buf| > 0
    requires run.s.consumer.Releasing? && run.s.consumer.r == k ==> run.s.consumer.msg == run.s.buf[Slot(run.s, k)]
    ensures After(start, later) && OnlyPops(run.s, later.s) && later.s.consumer == Resting
    ensures later.s.read == k + 1 && k < |later.s.popped| && later.s.popped[k] == run.s.buf[Slot(run.s, k)]
    decreases k - run.s.read, Stage(run.s.consumer)
  {
    hide DisciplinedFrom, IsRun;
    RunInv(run);
    hide Wrap, ProducersOk;
    later := ConsumerStep(start, run);
    if later.s.read <= k {
      later := Drain(start, later, k);
    }
  }

  /** The consumer comes to rest with everything committed taken. */
  lemma {:induction false} DrainAll(start: Run<State>, run: Run<State>) returns (later: Run<State>)
    requires After(start, run) && |run.s.buf| > 0
    ensures After(start, later) && OnlyPops(run.s, later.s)
    ensures later.s.consumer == Resting && later.s.read == later.s.commit
    decreases run.s.commit - run.s.read, Stage(run.s.consumer)
  {
    hide DisciplinedFrom, IsRun;
    RunInv(run);
    hide Wrap, ProducersOk;
    later := run;
    if run.s.consumer != Resting || run.s.read < run.s.commit {
      later := ConsumerStep(start, run);
      if run.s.read < run.s.commit {
        later := DrainAll(start, later);
      }
    }
  }

  /* ----- one producer alone ----- */

  /** The producer reserves the next index for `c`. */
  lemma {:induction false} Reserves(start: Run<State>, run: Run<State>, t: nat, c: Value) returns (later: Run<State>)
    requires After(start, run) && Is(run.s, t) && run.s.producers[t] == Idle
    requires run.s.reserve - run.s.read < |run.s.buf|
    ensures After(start, later)
    ensures later.s == At(run.s, t, Writing(c, run.s.reserve)).(
              reserve := run.s.reserve + 1, reserved := run.s.reserved + [c], owner := run.s.owner + [t],
              written := run.s.written + [false])
  {
    hide IsRun, DisciplinedFrom, Wrap;
    var s := run.s;
    var s1 := At(s, t, Loading(c));
    assert Begin(s, s1, t, c);
    later := ExtendPush(start, run, s1, t);
    later := ExtendPush(start, later, At(s, t, LoadingRead(c, s.reserve)), t);
    later := ExtendPush(start, later, At(s, t, Reserving(c, s.reserve, s.read)), t);
    later := ExtendPush(start, later, At(s, t, Writing(c, s.reserve)).(
                          reserve := s.reserve + 1, reserved := s.reserved + [c], owner := s.owner + [t],
                          written := s.written + [false]), t);
  }

  lemma {:induction false} Writes(start: Run<State>, run: Run<State>, t: nat) returns (later: Run<State>)
    requires After(start, run) && Is(run.s, t) && run.s.producers[t].Writing? && run.s.producers[t].rw < |run.s.written|
    ensures After(start, later)
    ensures var pc := run.s.producers[t];
            later.s == At(run.s, t, Committing(pc.rw, pc.rw)).(
              buf := run.s.buf[Slot(run.s, pc.rw) := pc.msg], written := run.s.written[pc.rw := true])
  {
    hide IsRun, DisciplinedFrom, Wrap;
    var pc := run.s.producers[t];
    later := ExtendPush(start, run, At(run.s, t, Committing(pc.rw, pc.rw)).(
                          buf := run.s.buf[Slot(run.s, pc.rw) := pc.msg], written := run.s.written[pc.rw := true]), t);
  }

  /** A producer in its commit loop commits the lowest index, whosever it is, and returns. */
  lemma {:induction false} Commits(start: Run<State>, run: Run<State>, t: nat) returns (later: Run<State>)
    requires After(start, run) && Is(run.s, t) && run.s.producers[t].Committing?
    requires run.s.commit < |run.s.written| && run.s.written[run.s.commit]
    ensures After(start, later) && later.s == At(run.s, t, Idle).(commit := run.s.commit + 1)
  {
    hide IsRun, DisciplinedFrom, Wrap;
    var s := run.s;
    later := ExtendPush(start, run, At(s, t, Committing(s.producers[t].own, s.commit)), t);
    later := ExtendPush(start, later, At(s, t, Returned(true)).(commit := s.commit + 1), t);
    later := ExtendPush(start, later, At(s, t, Idle).(commit := s.commit + 1), t);
  }

  /* ----- everybody but the late producer writes ----- */

  /** Producers have written slots; nothing else has happened. */
  ghost predicate OnlyWrites(s: State, s': State) {
    && |s'.producers| == |s.producers| && |s'.buf| == |s.buf| && |s'.written| == |s.written|
    && s'.read == s.read && s'.commit == s.commit && s'.reserve == s.reserve
    && s'.reserved == s.reserved && s'.owner == s.owner
    && forall u :: 0 <= u < |s.producers| && !s.producers[u].Writing? ==> s'.producers[u] == s.producers[u]
  }

  /** Of the first `n` producers none is about to write, but for the one that reserved `k`. */
  lemma {:induction false} OthersWrite(start: Run<State>, run: Run<State>, k: nat, n: nat) returns (later: Run<State>)
    requires After(start, run) && |run.s.buf| > 0 && n <= |run.s.producers| && k < |run.s.written|
    ensures After(start, later) && OnlyWrites(run.s, later.s) && later.s.written[k] == run.s.written[k]
    ensures forall u :: 0 <= u < |run.s.producers| && run.s.producers[u].Writing? && run.s.producers[u].rw == k ==>
              later.s.producers[u] == run.s.producers[u]
    ensures forall u :: 0 <= u < n && later.s.producers[u].Writing? ==> later.s.producers[u].rw == k
    decreases n
  {
    later := run;
    if n > 0 {
      hide IsRun, DisciplinedFrom, Wrap;
      later := OthersWrite(start, run, k, n - 1);
      RunInv(later);
      assert ProducerOk(later.s, n - 1);
      if later.s.producers[n - 1].Writing? && later.s.producers[n - 1].rw != k {
        later := Writes(start, later, n - 1);
      }
    }
  }

  /* ----- once round the ring ----- */

  /** Index `k` was committed unwritten; its producer `late` still has to write.  All later indices are
      written, the consumer has taken what is committed, and `t` can push. */
  ghost predicate Ahead(s: State, late: nat, t: nat, k: nat, m: Value) {
    && Is(s, t) && t != late && late < |s.producers| && s.producers[late] == Writing(m, k) && s.producers[t] == Idle
    && k < s.commit == s.read <= s.reserve == |s.written| == |s.reserved| && s.reserve - s.read < |s.buf|
    && s.consumer == Resting && |s.popped| == s.read
    && forall j :: s.commit <= j < |s.written| ==> s.written[j]
  }

  /** All indices from `first` on were reserved for `c`. */
  predicate AllFrom(s: State, first: nat, c: Value) {
    forall j :: first <= j < |s.reserved| ==> s.reserved[j] == c
  }

  lemma {:induction false} PushAhead(start: Run<State>, run: Run<State>, late: nat, t: nat, k: nat, m: Value, first: nat, c: Value)
    returns (later: Run<State>)
    requires After(start, run) && Ahead(run.s, late, t, k, m) && AllFrom(run.s, first, c)
    ensures After(start, later) && AllFrom(later.s, first, c)
    ensures later.s.producers == run.s.producers && |later.s.buf| == |run.s.buf|
    ensures later.s.read == run.s.read && later.s.consumer == Resting && later.s.popped == run.s.popped
    ensures later.s.commit == run.s.commit + 1 && later.s.reserve == run.s.reserve + 1
    ensures |later.s.written| == |later.s.reserved| == later.s.reserve
    ensures forall j :: run.s.commit <= j < |later.s.written| ==> later.s.written[j]
  {
    hide IsRun, DisciplinedFrom, Wrap;
    later := Reserves(start, run, t, c);
    later := Writes(start, later, t);
    later := Commits(start, later, t);
    assert later.s.producers == run.s.producers;
  }

  lemma {:induction false} RoundAhead(start: Run<State>, run: Run<State>, late: nat, t: nat, k: nat, m: Value, first: nat, c: Value)
    returns (later: Run<State>)
    requires After(start, run) && Ahead(run.s, late, t, k, m) && AllFrom(run.s, first, c)
    ensures After(start, later) && AllFrom(later.s, first, c) && Ahead(later.s, late, t, k, m)
    ensures later.s.commit == run.s.commit + 1 && |later.s.buf| == |run.s.buf|
  {
    hide IsRun, DisciplinedFrom, Wrap;
    later := PushAhead(start, run, late, t, k, m, first, c);
    later := DrainAll(start, later);
    RunInv(later);
  }

  lemma {:induction false} RoundsAhead(start: Run<State>, run: Run<State>, late: nat, t: nat, k: nat, m: Value, first: nat, c: Value, n: nat)
    returns (later: Run<State>)
    requires After(start, run) && Ahead(run.s, late, t, k, m) && AllFrom(run.s, first, c)
    ensures After(start, later) && AllFrom(later.s, first, c) && Ahead(later.s, late, t, k, m)
    ensures later.s.commit == run.s.commit + n && |later.s.buf| == |run.s.buf|
    decreases n
  {
    later := run;
    if n > 0 {
      hide IsRun, DisciplinedFrom, Ahead, AllFrom;
      later := RoundAhead(start, run, late, t, k, m, first, c);
      later := RoundsAhead(start, later, late, t, k, m, first, c, n - 1);
    }
  }

  lemma SameSlot(k: nat, n: nat)
    requires n > 0
    ensures Wrap(k + n, n) == Wrap(k, n)
  {
    WrapUnique(k + n, n, k / n + 1, k % n);
  }

  /** The late producer writes over the message one turn of the ring later, which is then popped. */
  lemma {:induction false} Overwrites(start: Run<State>, run: Run<State>, late: nat, t: nat, k: nat, m: Value, first: nat, c: Value)
    returns (later: Run<State>)
    requires After(start, run) && Ahead(run.s, late, t, k, m) && AllFrom(run.s, first, c)
    requires run.s.commit == k + |run.s.buf| && first <= run.s.commit && c != m
    ensures After(start, later) && !Fifo(later.s)
  {
    hide IsRun, DisciplinedFrom, Wrap;
    var size := |run.s.buf|;
    later := PushAhead(start, run, late, t, k, m, first, c);
    assert later.s.reserved[k + size] == c;
    later := Writes(start, later, late);
    SameSlot(k, size);
    later := Drain(start, later, k + size);
  }

  /* ----- the exact condition ----- */

  /** The late producer and the one that committed its index. */
  lemma {:induction false} GetsAhead(run: Run<State>, s': State, t: nat) returns (start: Run<State>, later: Run<State>, late: nat, m: Value)
    requires IsRun(run) && Commit(run.s, s', t) && run.s.commit < |run.s.written| && !run.s.written[run.s.commit]
    ensures start == Then(run, s') && After(start, later) && Ahead(later.s, late, t, run.s.commit, m)
    ensures later.s.commit == run.s.commit + 1 && later.s.reserve <= run.s.commit + |later.s.buf|
  {
    hide IsRun, Wrap;
    var k := run.s.commit;
    RunInv(run);
    UnwrittenRun(run);
    late := run.s.owner[k];
    assert ProducerOk(run.s, late);
    m := run.s.producers[late].msg;
    start := Committed(run, s', t);
    later := ExtendPush(start, start, At(s', t, Idle), t);
    later := OthersWrite(start, later, k, |later.s.producers|);
    AllWritten(later, k);
    later := DrainAll(start, later);
    RunInv(later);
  }

  lemma {:induction false} AllWritten(run: Run<State>, k: nat)
    requires IsRun(run) && k < |run.s.written|
    requires forall u :: 0 <= u < |run.s.producers| && run.s.producers[u].Writing? ==> run.s.producers[u].rw == k
    ensures forall j :: 0 <= j < |run.s.written| && j != k ==> run.s.written[j]
  {
    hide IsRun;
    UnwrittenRun(run);
  }

  lemma {:induction false} Committed(run: Run<State>, s': State, t: nat) returns (start: Run<State>)
    requires IsRun(run) && Commit(run.s, s', t)
    ensures start == Then(run, s') && IsRun(start)
  {
    assert PushNext(run.s, s', t);
    assert Steps(run.s, s');
    start := Then(run, s');
  }

  /** After a commit of an index whose slot is not written, some continuation is not first in, first out,
      although every further commit is of a written slot. */
  lemma {:induction false} UnwrittenCommitBreaks(run: Run<State>, s': State, t: nat, c: Value, d: Value) returns (later: Run<State>)
    requires IsRun(run) && Commit(run.s, s', t) && run.s.commit < |run.s.written| && !run.s.written[run.s.commit] && c != d
    ensures IsRun(later) && DisciplinedFrom(Then(run, s'), later) && !Fifo(later.s)
  {
    hide IsRun, DisciplinedFrom, Ahead;
    var start, late, m;
    start, later, late, m := GetsAhead(run, s', t);
    var other := if c == m then d else c;
    var first := |later.s.reserved|;
    var k := run.s.commit;
    assert first <= k + |later.s.buf| && |later.s.buf| > 0 by { RunInv(later); }
    later := RoundsAhead(start, later, late, t, k, m, first, other, |later.s.buf| - 1);
    later := Overwrites(start, later, late, t, k, m, first, other);
  }

  /** The exact condition, for every disciplined run and its next commit: the queue stays first in, first out
      on every continuation with disciplined commits if and only if the slot committed has been written. */
  lemma {:induction false} CommitMatters(run: Run<State>, s': State, t: nat, c: Value, d: Value)
    requires IsRun(run) && Disciplined(run) && Commit(run.s, s', t) && c != d
    ensures run.s.commit < |run.s.written|
    ensures run.s.written[run.s.commit] <==>
            (forall later :: IsRun(later) && DisciplinedFrom(Then(run, s'), later) ==> Fifo(later.s))
  {
    hide IsRun, Fifo, DisciplinedFrom;
    InFlightCommits(run, t);
    if run.s.written[run.s.commit] {
      var start := Then(run, s');
      assert Disciplined(start);
      forall later | IsRun(later) && DisciplinedFrom(start, later) ensures Fifo(later.s) {
        DisciplinedOn(start, later);
        IsFifo(later);
      }
    } else {
      var later := UnwrittenCommitBreaks(run, s', t, c, d);
    }
  }

  lemma {:induction false} InFlightCommits(run: Run<State>, t: nat)
    requires IsRun(run) && t < |run.s.producers| && run.s.producers[t].Committing?
    ensures run.s.commit < |run.s.written|
  {
    hide IsRun;
    RunInv(run);
    SumAtLeast(run.s.producers, t, InFlight);
  }

  lemma {:induction false} IsFifo(run: Run<State>)
    requires IsRun(run) && Disciplined(run)
    ensures Fifo(run.s)
  {
    hide IsRun, Disciplined;
    FirstInFirstOut(run);
  }

  /* ----- a run on which it is not ----- */

  /** `p` producers share a ring of `n` slots. */
  predicate Config(s: State, n: nat, p: nat) {
    |s.buf| == n && |s.producers| == p
  }

  lemma Begun(s: State) returns (run: Run<State>)
    requires Init(s)
    ensures IsRun(run) && run.s == s
  {
    run := Start(s);
  }

  /** Two producers have reserved an index each, and the second has written its slot. */
  predicate TwoReserved(s: State, d: Value, m0: Value, m1: Value) {
    && |s.producers| > 1 && s.producers[0] == Writing(m0, 0) && s.producers[1] == Committing(1, 1)
    && s.read == s.commit == 0 && s.reserve == 2 && s.consumer == Resting && s.popped == []
    && s.reserved == [m0, m1] && s.owner == [0, 1] && s.written == [false, true]
    && |s.buf| > 1 && s.buf[0] == d
  }

  lemma Reserved(n: nat, p: nat, d: Value, m0: Value, m1: Value) returns (run: Run<State>)
    requires n > 1 && p > 1
    ensures IsRun(run) && Config(run.s, n, p) && TwoReserved(run.s, d, m0, m1)
  {
    hide IsRun, DisciplinedFrom, Wrap;
    var start := Begun(State(seq(n, _ => d), 0, 0, 0, seq(p, _ => Idle), Resting, [], [], [], []));
    assert DisciplinedFrom(start, start) by { StartsDisciplined(start); }
    run := Reserves(start, start, 0, m0);
    run := Reserves(start, run, 1, m1);
    assert run.s.reserved == [m0, m1] && run.s.owner == [0, 1] && run.s.written == [false, false];
    WrapUnique(1, n, 0, 1);
    run := Writes(start, run, 1);
  }

  lemma StartsDisciplined(run: Run<State>)
    ensures DisciplinedFrom(run, run)
  {
  }

  /** The second producer fails to commit its index, is handed the first one's and goes to commit that. */
  lemma CommitsAnothers(n: nat, p: nat, d: Value, m0: Value, m1: Value) returns (run: Run<State>, s': State)
    requires n > 1 && p > 1
    ensures IsRun(run) && Config(run.s, n, p) && Commit(run.s, s', 1)
    ensures run.s.reserved == [m0, m1] && run.s.commit == run.s.read == 0 && run.s.written == [false, true]
    ensures run.s.consumer == Resting && run.s.buf[0] == d
  {
    hide IsRun;
    run := Reserved(n, p, d, m0, m1);
    var s := At(run.s, 1, Committing(1, 0));
    assert CommitFails(run.s, s, 1);
    assert PushNext(run.s, s, 1);
    run := Continue(run, s, 1);
    s' := At(s, 1, Returned(true)).(commit := 1);
  }

  lemma {:induction false} Continue(run: Run<State>, s: State, t: nat) returns (next: Run<State>)
    requires IsRun(run) && PushNext(run.s, s, t)
    ensures IsRun(next) && next.s == s
  {
    assert Steps(run.s, s);
    next := Then(run, s);
  }

  /** With two producers and two slots the consumer can pop a slot that was never written. */
  lemma PopsUnwritten(n: nat, p: nat, d: Value, m0: Value, m1: Value) returns (run: Run<State>)
    requires n > 1 && p > 1 && d != m0
    ensures IsRun(run) && Config(run.s, n, p) && run.s.reserved == [m0, m1]
    ensures run.s.popped != [] && run.s.popped[0] == d
  {
    hide IsRun, DisciplinedFrom;
    var s';
    run, s' := CommitsAnothers(n, p, d, m0, m1);
    var start := Committed(run, s', 1);
    StartsDisciplined(start);
    WrapUnique(0, n, 0, 0);
    hide Wrap;
    run := Drain(start, start, 0);
  }

  /* ----- which configurations are first in, first out ----- */

  lemma StepKeepsConfig(s: State, s': State)
    requires Steps(s, s')
    ensures |s'.buf| == |s.buf| && |s'.producers| == |s.producers|
  {
    hide Wrap;
    if !PopNext(s, s') {
      var t :| PushNext(s, s', t);
      if QuietNext(s, s', t) {
      } else {
      }
    }
  }

  lemma {:induction false} RunKeepsConfig(start: Run<State>, later: Run<State>, n: nat, p: nat)
    requires IsRun(later) && DisciplinedFrom(start, later) && Config(start.s, n, p)
    ensures Config(later.s, n, p)
    decreases later
  {
    hide Steps;
    if later != start {
      RunKeepsConfig(start, later.before, n, p);
      StepKeepsConfig(later.before.s, later.s);
    }
  }

  /** At most one producer can be between its exchanges. */
  predicate OneAtATime(s: State) {
    |s.producers| <= 1 || |s.buf| == 1
  }

  lemma OneInFlight(s: State, t: nat, u: nat)
    requires Inv(s) && OneAtATime(s) && t < |s.producers| && u < |s.producers|
    requires InFlight(s.producers[t]) == InFlight(s.producers[u]) == 1
    ensures t == u && s.reserve == s.commit + 1
  {
    SumAtLeast(s.producers, t, InFlight);
    if t < u {
      SumTwo(s.producers, t, u, InFlight);
    } else if u < t {
      SumTwo(s.producers, u, t, InFlight);
    }
    if |s.producers| == 1 {
      assert s.producers[..0] == [];
    }
  }

  /** A producer between its exchanges has the index to be committed next. */
  ghost predicate NextIndexOnly(s: State) {
    forall t :: 0 <= t < |s.producers| ==>
      && (s.producers[t].Writing? ==> s.producers[t].rw == s.commit)
      && (s.producers[t].Committing? ==> s.producers[t].own == s.commit)
  }

  lemma NextIndexPush(s: State, s': State, t: nat)
    requires Inv(s) && Inv(s') && OneAtATime(s) && OneAtATime(s') && NextIndexOnly(s) && PushNext(s, s', t)
    ensures NextIndexOnly(s') && CommitsWritten(s, s')
  {
    hide Wrap, IndicesOk, ConsumerOk, OneAtATime;
    assert ProducerOk(s, t);
    forall u | 0 <= u < |s'.producers| && InFlight(s'.producers[u]) == 1
      ensures s'.producers[u].Writing? ==> s'.producers[u].rw == s'.commit
      ensures s'.producers[u].Committing? ==> s'.producers[u].own == s'.commit
    {
      if Reserve(s, s', t) {
        OneInFlight(s', t, u);
      } else if Commit(s, s', t) && u != t {
        OneInFlight(s, t, u);
      }
    }
  }

  lemma NextIndexStep(s: State, s': State)
    requires Inv(s) && OneAtATime(s) && NextIndexOnly(s) && Steps(s, s')
    ensures NextIndexOnly(s') && CommitsWritten(s, s')
  {
    InvNext(s, s');
    StepKeepsConfig(s, s');
    hide Inv, Wrap;
    if !PopNext(s, s') {
      var t :| PushNext(s, s', t);
      NextIndexPush(s, s', t);
    }
  }

  lemma {:induction false} OneIsDisciplined(run: Run<State>)
    requires IsRun(run) && OneAtATime(run.s)
    ensures Disciplined(run) && NextIndexOnly(run.s)
  {
    hide Steps, Inv, CommitsWritten;
    match run
    case Start(_) =>
    case Then(before, s) =>
      StepKeepsConfig(before.s, s);
      OneIsDisciplined(before);
      RunInv(before);
      NextIndexStep(before.s, s);
  }

  ghost predicate AlwaysFifo(n: nat, p: nat) {
    forall run :: IsRun(run) && Config(run.s, n, p) ==> Fifo(run.s)
  }

  /** The configurations whose every run is first in, first out: at most one producer, or one slot. */
  lemma {:induction false} FifoExactly(n: nat, p: nat, c: Value, d: Value)
    requires c != d
    ensures AlwaysFifo(n, p) <==> p <= 1 || n <= 1
  {
    hide IsRun, Fifo, Disciplined, DisciplinedFrom;
    if p <= 1 || n <= 1 {
      forall run | IsRun(run) && Config(run.s, n, p) ensures Fifo(run.s) {
        RunInv(run);
        OneIsDisciplined(run);
        IsFifo(run);
      }
    } else {
      var run, s' := CommitsAnothers(n, p, c, c, c);
      var later := UnwrittenCommitBreaks(run, s', 1, c, d);
      RunKeepsConfig(Then(run, s'), later, n, p);
    }
  }
}

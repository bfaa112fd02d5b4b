/** What the hazard-pointer stack promises in every run: no access to freed memory, linearizable
    push and pop, and every allocated node in exactly one place. */
module HazardTheorems {
  import opened Options
  import opened Runs
  import opened HazardModel
  import opened HazardInvariant

  /* ----- the sequential specification, over the history of events ----- */

  /** The abstract LIFO stack after the linearized operations of `log`; None when one is illegal. */
  function Replay(log: seq<Event>): Option<seq<Value>> {
    if log == [] then Some([])
    else Apply(Replay(log[..|log| - 1]), log[|log| - 1])
  }

  function Apply(stack: Option<seq<Value>>, e: Event): Option<seq<Value>> {
    if stack.None? then None
    else
      match e
      case DidPush(_, v) => Some([v] + stack.value)
      case DidPop(_, v) => if stack.value != [] && stack.value[0] == v then Some(stack.value[1..]) else None
      case DidEmpty(_) => if stack.value == [] then Some([]) else None
      case _ => stack
  }

  /** How far a thread is in its current operation, according to the history. */
  datatype Phase = Quiet | InPush(v: Value) | PushDone | InPop | PopDone(v: Value) | FoundEmpty | Broken

  /** Call, then exactly one linearization, then the matching return; anything else is Broken. */
  function Follow(p: Phase, e: Event, t: Tid): Phase {
    if e.t != t then p
    else
      match (p, e)
      case (Quiet, CallPush(_, v)) => InPush(v)
      case (InPush(v), DidPush(_, w)) => if v == w then PushDone else Broken
      case (PushDone, RetPush(_)) => Quiet
      case (Quiet, CallPop(_)) => InPop
      case (InPop, DidPop(_, v)) => PopDone(v)
      case (PopDone(v), RetPop(_, w)) => if v == w then Quiet else Broken
      case (InPop, DidEmpty(_)) => FoundEmpty
      case (FoundEmpty, ThrowEmpty(_)) => Quiet
      case (InPop, ThrowNoSlot(_)) => Quiet
      case _ => Broken
  }

  function PhaseOf(log: seq<Event>, t: Tid): Phase {
    if log == [] then Quiet
    else Follow(PhaseOf(log[..|log| - 1], t), log[|log| - 1], t)
  }

  /** The events of thread `t` alone. */
  function EventsOf(log: seq<Event>, t: Tid): seq<Event> {
    if log == [] then []
    else EventsOf(log[..|log| - 1], t) + if log[|log| - 1].t == t then [log[|log| - 1]] else []
  }

  lemma EventsAppend(log: seq<Event>, e: Event, t: Tid)
    ensures EventsOf(log + [e], t) == EventsOf(log, t) + if e.t == t then [e] else []
  {
    assert (log + [e])[..|log|] == log;
  }

  lemma {:induction false} EventsAppendAll(log: seq<Event>, es: seq<Event>, t: Tid)
    requires forall i :: 0 <= i < |es| ==> es[i].t == t
    ensures EventsOf(log + es, t) == EventsOf(log, t) + es
    decreases es
  {
    if es == [] {
      assert log + es == log;
    } else {
      EventsAppend(log, es[0], t);
      EventsAppendAll(log + [es[0]], es[1..], t);
      assert log + es == log + [es[0]] + es[1..];
    }
  }

  lemma {:induction false} EventsOfOther(log: seq<Event>, es: seq<Event>, t: Tid, u: Tid)
    requires u != t && forall i :: 0 <= i < |es| ==> es[i].t == u
    ensures EventsOf(log + es, t) == EventsOf(log, t)
    decreases es
  {
    if es == [] {
      assert log + es == log;
    } else {
      EventsAppend(log, es[0], t);
      EventsOfOther(log + [es[0]], es[1..], t, u);
      assert log + es == log + [es[0]] + es[1..];
    }
  }

  /** A thread's phase depends on its own events only. */
  lemma {:induction false} PhaseByEvents(log: seq<Event>, t: Tid)
    ensures PhaseOf(EventsOf(log, t), t) == PhaseOf(log, t)
  {
    if log != [] {
      var before, e := log[..|log| - 1], log[|log| - 1];
      assert log == before + [e];
      PhaseByEvents(before, t);
      EventsAppend(before, e, t);
      PhaseAppend(before, e, t);
      if e.t == t {
        PhaseAppend(EventsOf(before, t), e, t);
      } else {
        assert EventsOf(log, t) == EventsOf(before, t);
      }
    }
  }

  lemma ReplayAppend(log: seq<Event>, e: Event)
    ensures Replay(log + [e]) == Apply(Replay(log), e)
  {
    assert (log + [e])[..|log|] == log;
  }

  lemma PhaseAppend(log: seq<Event>, e: Event, t: Tid)
    ensures PhaseOf(log + [e], t) == Follow(PhaseOf(log, t), e, t)
  {
    assert (log + [e])[..|log|] == log;
  }

  function Contents(heap: map<Addr, Node>, stack: seq<Addr>): seq<Value>
    requires forall i :: 0 <= i < |stack| ==> stack[i] in heap
  {
    seq(|stack|, i requires 0 <= i < |stack| => heap[stack[i]].data)
  }

  /** The history replays to the nodes reached from `head`. */
  ghost predicate ReplayOk(s: State)
    requires StackOk(s)
  {
    Replay(s.log) == Some(Contents(s.heap, s.stack))
  }

  /** The phase a program counter stands for. */
  ghost predicate InPhase(heap: map<Addr, Node>, pc: PC, p: Phase) {
    match pc
    case Idle => p == Quiet
    case Exiting => p == Quiet
    case PushLoad(n) => n in heap && p == InPush(heap[n].data)
    case PushCas(n) => n in heap && p == InPush(heap[n].data)
    case PopClear(a) => a in heap && p == PopDone(heap[a].data)
    case PopData(a) => a in heap && p == PopDone(heap[a].data)
    case PopScan(_, res, _) => p == PopDone(res)
    case PopWrap(_, res) => p == PopDone(res)
    case AddLoad(_, res, _) => p == PopDone(res)
    case AddCas(_, res, _) => p == PopDone(res)
    case SweepTake(res) => p == PopDone(res)
    case SweepNext(_, res) => p == PopDone(res)
    case SweepScan(_, _, _, res, _) => p == PopDone(res)
    case _ => p == InPop
  }

  ghost predicate PhasesOk(s: State) {
    forall t :: 0 <= t < |s.threads| ==> InPhase(s.heap, s.threads[t].pc, PhaseOf(s.log, t))
  }

  /* ----- the history invariant is kept ----- */

  predicate Silent(e: Event) {
    !e.DidPush? && !e.DidPop? && !e.DidEmpty?
  }

  /** No linearization: the stack stays, the data of surviving nodes stays. */
  ghost predicate NoEffect(s: State, s': State) {
    && s'.stack == s.stack
    && (forall a :: a in s.heap && a in s'.heap ==> s'.heap[a].data == s.heap[a].data)
    && (s'.log == s.log || (exists e :: s'.log == s.log + [e] && Silent(e)))
  }

  lemma ReplayQuiet(s: State, s': State)
    requires StackOk(s) && StackOk(s') && ReplayOk(s) && NoEffect(s, s')
    ensures ReplayOk(s')
  {
    hide Nth, IsStackChain, Distinct;
    assert Contents(s'.heap, s'.stack) == Contents(s.heap, s.stack);
    if s'.log != s.log {
      var e :| s'.log == s.log + [e] && Silent(e);
      ReplayAppend(s.log, e);
    }
  }

  lemma StartPushNoEffect(s: State, s': State, t: Tid, v: Value, n: Addr)
    requires StartPush(s, s', t, v, n)
    ensures NoEffect(s, s')
  {
    assert Silent(CallPush(t, v));
  }

  lemma StartPopNoEffect(s: State, s': State, t: Tid)
    requires StartPop(s, s', t)
    ensures NoEffect(s, s')
  {
    assert Silent(CallPop(t));
  }

  lemma ClaimNoEffect(s: State, s': State, t: Tid, i: nat)
    requires DoClaim(s, s', t, i)
    ensures NoEffect(s, s')
  {
    assert Silent(ThrowNoSlot(t));
  }

  lemma SlotNoEffect(s: State, s': State, t: Tid)
    requires SlotNext(s, s', t)
    ensures NoEffect(s, s')
  {
    if StartPop(s, s', t) {
      StartPopNoEffect(s, s', t);
    } else if s.threads[t].pc.Claim? {
      ClaimNoEffect(s, s', t, s.threads[t].pc.i);
    }
  }

  lemma DisposeNoEffect(s: State, s': State, t: Tid)
    requires DisposeNext(s, s', t)
    ensures NoEffect(s, s')
  {
  }

  lemma SweepNextNoEffect(s: State, s': State, t: Tid, current: Addr, res: Value)
    requires DoSweepNext(s, s', t, current, res)
    ensures NoEffect(s, s')
  {
    assert Silent(RetPop(t, res));
  }

  lemma RetireNoEffect(s: State, s': State, t: Tid)
    requires RetireNext(s, s', t)
    ensures NoEffect(s, s')
  {
    if s.threads[t].pc.SweepNext? {
      SweepNextNoEffect(s, s', t, s.threads[t].pc.current, s.threads[t].pc.res);
    }
  }

  /** Two events of one linearized operation that also returns, or throws, in the same step. */
  lemma ReplayTwo(log: seq<Event>, e: Event, ret: Event)
    requires Silent(ret)
    ensures Replay(log + [e, ret]) == Apply(Replay(log), e)
  {
    ReplayAppend(log, e);
    ReplayAppend(log + [e], ret);
    assert log + [e, ret] == log + [e] + [ret];
  }

  lemma ContentsPush(heap: map<Addr, Node>, n: Addr, stack: seq<Addr>)
    requires n in heap && forall i :: 0 <= i < |stack| ==> stack[i] in heap
    ensures forall i :: 0 <= i < |[n] + stack| ==> ([n] + stack)[i] in heap
    ensures Contents(heap, [n] + stack) == [heap[n].data] + Contents(heap, stack)
  {
    forall i | 0 <= i < |[n] + stack| ensures ([n] + stack)[i] in heap {
      assert i > 0 ==> ([n] + stack)[i] == stack[i - 1];
    }
  }

  lemma PushCasLoses(s: State, s': State, t: Tid, n: Addr)
    requires DoPushCas(s, s', t, n) && s.head != s.heap[n].next
    ensures NoEffect(s, s')
  {
  }

  lemma ReplayPushWins(s: State, s': State, t: Tid, n: Addr)
    requires StackOk(s) && ReplayOk(s) && DoPushCas(s, s', t, n) && s.head == s.heap[n].next
    requires forall i :: 0 <= i < |s.stack| ==> s.stack[i] in s.heap
    requires forall i :: 0 <= i < |s'.stack| ==> s'.stack[i] in s'.heap
    ensures Replay(s'.log) == Some(Contents(s'.heap, s'.stack))
  {
    hide StackOk, IsStackChain, Distinct;
    ReplayTwo(s.log, DidPush(t, s.heap[n].data), RetPush(t));
    ContentsPush(s.heap, n, s.stack);
    hide Contents, Replay;
  }

  lemma ReplayPushCas(s: State, s': State, t: Tid, n: Addr)
    requires StackOk(s) && ReplayOk(s) && StackOk(s') && DoPushCas(s, s', t, n)
    requires s.head == s.heap[n].next
    ensures ReplayOk(s')
  {
    hide Distinct, Contents, Replay;
    ReplayPushWins(s, s', t, n);
  }

  lemma ReplayPush(s: State, s': State, t: Tid)
    requires StackOk(s) && ReplayOk(s) && StackOk(s') && PushNext(s, s', t)
    ensures ReplayOk(s')
  {
    match s.threads[t].pc
    case Idle =>
      var v, n :| StartPush(s, s', t, v, n);
      StartPushNoEffect(s, s', t, v, n);
      ReplayQuiet(s, s');
    case PushLoad(n) => ReplayQuiet(s, s');
    case PushCas(n) =>
      if s.head == s.heap[n].next {
        ReplayPushCas(s, s', t, n);
      } else {
        PushCasLoses(s, s', t, n);
        ReplayQuiet(s, s');
      }
  }

  lemma ContentsPop(heap: map<Addr, Node>, stack: seq<Addr>)
    requires stack != [] && forall i :: 0 <= i < |stack| ==> stack[i] in heap
    ensures forall i :: 0 <= i < |stack[1..]| ==> stack[1..][i] in heap
    ensures Contents(heap, stack) == [heap[stack[0]].data] + Contents(heap, stack[1..])
  {
  }

  lemma ReplayPopWins(s: State, s': State, t: Tid, a: Addr, next: Addr)
    requires StackOk(s) && ReplayOk(s) && DoPopCas(s, s', t, a, next) && s.head == a
    requires s.stack != [] && s.stack[0] == a && forall i :: 0 <= i < |s.stack| ==> s.stack[i] in s.heap
    requires forall i :: 0 <= i < |s'.stack| ==> s'.stack[i] in s'.heap
    ensures Replay(s'.log) == Some(Contents(s'.heap, s'.stack))
  {
    hide Distinct, IsStackChain, StackOk;
    ReplayAppend(s.log, DidPop(t, s.heap[a].data));
    ContentsPop(s.heap, s.stack);
    hide Contents, Replay;
  }

  lemma ReplayPopCas(s: State, s': State, t: Tid, a: Addr, next: Addr)
    requires StackOk(s) && ReplayOk(s) && StackOk(s') && DoPopCas(s, s', t, a, next)
    ensures ReplayOk(s')
  {
    hide Distinct, Contents, Replay;
    if s.head == a {
      assert s.stack != [] && s.stack[0] == a;
      ReplayPopWins(s, s', t, a, next);
    } else {
      ReplayQuiet(s, s');
    }
  }

  lemma ReplayPopConfirm(s: State, s': State, t: Tid, a: Addr)
    requires StackOk(s) && ReplayOk(s) && StackOk(s') && DoPopConfirm(s, s', t, a)
    ensures ReplayOk(s')
  {
    if s.head == a && a == NULL {
      assert s.stack == [];
      ReplayTwo(s.log, DidEmpty(t), ThrowEmpty(t));
    } else {
      ReplayQuiet(s, s');
    }
  }

  lemma ReplayLook(s: State, s': State, t: Tid)
    requires StackOk(s) && ReplayOk(s) && StackOk(s') && LookNext(s, s', t)
    ensures ReplayOk(s')
  {
    match s.threads[t].pc
    case PopCas(a, next) => ReplayPopCas(s, s', t, a, next);
    case PopConfirm(a) => ReplayPopConfirm(s, s', t, a);
    case _ => ReplayQuiet(s, s');
  }

  lemma ReplayNext(s: State, s': State, t: Tid)
    requires StackOk(s) && ReplayOk(s) && StackOk(s') && Next(s, s', t)
    ensures ReplayOk(s')
  {
    if PushNext(s, s', t) {
      ReplayPush(s, s', t);
    } else if LookNext(s, s', t) {
      ReplayLook(s, s', t);
    } else {
      if SlotNext(s, s', t) {
        SlotNoEffect(s, s', t);
      } else if DisposeNext(s, s', t) {
        DisposeNoEffect(s, s', t);
      } else {
        RetireNoEffect(s, s', t);
      }
      ReplayQuiet(s, s');
    }
  }

  /* ----- phases ----- */

  function FollowAll(p: Phase, es: seq<Event>, t: Tid): Phase
    decreases es
  {
    if es == [] then p else FollowAll(Follow(p, es[0], t), es[1..], t)
  }

  lemma FollowTwo(e: Event, f: Event, t: Tid)
    ensures forall p :: FollowAll(p, [e, f], t) == Follow(Follow(p, e, t), f, t)
  {
    forall p ensures FollowAll(p, [e, f], t) == Follow(Follow(p, e, t), f, t) {
      assert [e, f][1..] == [f];
      assert FollowAll(Follow(p, e, t), [f], t) == Follow(Follow(p, e, t), f, t);
    }
  }

  lemma {:induction false} PhaseAppendAll(log: seq<Event>, es: seq<Event>, t: Tid)
    ensures PhaseOf(log + es, t) == FollowAll(PhaseOf(log, t), es, t)
    decreases es
  {
    if es == [] {
      assert log + es == log;
    } else {
      PhaseAppend(log, es[0], t);
      PhaseAppendAll(log + [es[0]], es[1..], t);
      assert log + es == log + [es[0]] + es[1..];
    }
  }

  lemma {:induction false} OthersIgnore(p: Phase, es: seq<Event>, t: Tid, u: Tid)
    requires u != t && forall i :: 0 <= i < |es| ==> es[i].t == t
    ensures FollowAll(p, es, u) == p
  {
    if es != [] {
      OthersIgnore(p, es[1..], t, u);
    }
  }

  /** The events the transition appends move `t` from the phase of its old program counter to the
      phase of its new one, and the data of surviving nodes stays. */
  ghost predicate PhaseStep(s: State, s': State, t: Tid, es: seq<Event>) {
    && OnlyThread(s, s', t)
    && s'.log == s.log + es
    && (forall i :: 0 <= i < |es| ==> es[i].t == t)
    && (forall a :: a in s.heap && a in s'.heap ==> s'.heap[a].data == s.heap[a].data)
    && (forall p :: InPhase(s.heap, s.threads[t].pc, p) ==>
          InPhase(s'.heap, s'.threads[t].pc, FollowAll(p, es, t)))
  }

  lemma PhasesFromStep(s: State, s': State, t: Tid, es: seq<Event>)
    requires PhasesOk(s) && HoldersOk(s') && s'.own.Keys == s'.heap.Keys && PhaseStep(s, s', t, es)
    ensures PhasesOk(s')
  {
    forall u | 0 <= u < |s.threads| ensures InPhase(s'.heap, s'.threads[u].pc, PhaseOf(s'.log, u)) {
      assert InPhase(s.heap, s.threads[u].pc, PhaseOf(s.log, u));
      PhaseAppendAll(s.log, es, u);
      if u != t {
        OthersIgnore(PhaseOf(s.log, u), es, t, u);
        assert Holding(s'.threads[u].pc, u).Some? ==> Holding(s'.threads[u].pc, u).value.0 in s'.own;
      }
    }
  }

  lemma StartPushPhase(s: State, s': State, t: Tid, v: Value, n: Addr)
    requires StartPush(s, s', t, v, n)
    ensures PhaseStep(s, s', t, [CallPush(t, v)])
  {
  }

  lemma PushCasPhase(s: State, s': State, t: Tid, n: Addr)
    requires DoPushCas(s, s', t, n)
    ensures PhaseStep(s, s', t,
                      if s.head == s.heap[n].next then [DidPush(t, s.heap[n].data), RetPush(t)] else [])
  {
    FollowTwo(DidPush(t, s.heap[n].data), RetPush(t), t);
  }

  lemma PushPhase(s: State, s': State, t: Tid) returns (es: seq<Event>)
    requires PushNext(s, s', t)
    ensures PhaseStep(s, s', t, es)
  {
    match s.threads[t].pc
    case Idle =>
      var v, n :| StartPush(s, s', t, v, n);
      StartPushPhase(s, s', t, v, n);
      es := [CallPush(t, v)];
    case PushLoad(n) =>
      es := [];
    case PushCas(n) =>
      PushCasPhase(s, s', t, n);
      es := if s.head == s.heap[n].next then [DidPush(t, s.heap[n].data), RetPush(t)] else [];
  }

  lemma ClaimPhase(s: State, s': State, t: Tid, i: nat) returns (es: seq<Event>)
    requires DoClaim(s, s', t, i)
    ensures PhaseStep(s, s', t, es)
  {
    es := if i >= MAX_HAZARD_POINTERS || i >= |s.slots| then [ThrowNoSlot(t)] else [];
  }

  lemma StartPopPhase(s: State, s': State, t: Tid)
    requires StartPop(s, s', t)
    ensures PhaseStep(s, s', t, [CallPop(t)])
  {
  }

  lemma SlotPhase(s: State, s': State, t: Tid) returns (es: seq<Event>)
    requires SlotNext(s, s', t)
    ensures PhaseStep(s, s', t, es)
  {
    if s.threads[t].pc.Claim? {
      es := ClaimPhase(s, s', t, s.threads[t].pc.i);
    } else if StartPop(s, s', t) {
      StartPopPhase(s, s', t);
      es := [CallPop(t)];
    } else {
      es := [];
    }
  }

  lemma EmptyPhase(s: State, s': State, t: Tid)
    requires DoPopConfirm(s, s', t, NULL) && s.head == NULL
    ensures PhaseStep(s, s', t, [DidEmpty(t), ThrowEmpty(t)])
  {
    FollowTwo(DidEmpty(t), ThrowEmpty(t), t);
  }

  lemma PopConfirmPhase(s: State, s': State, t: Tid, a: Addr) returns (es: seq<Event>)
    requires DoPopConfirm(s, s', t, a)
    ensures PhaseStep(s, s', t, es)
  {
    if s.head == a && a == NULL {
      EmptyPhase(s, s', t);
      es := [DidEmpty(t), ThrowEmpty(t)];
    } else {
      es := [];
    }
  }

  lemma PopCasPhase(s: State, s': State, t: Tid, a: Addr, next: Addr) returns (es: seq<Event>)
    requires DoPopCas(s, s', t, a, next)
    ensures PhaseStep(s, s', t, es)
  {
    es := if s.head == a then [DidPop(t, s.heap[a].data)] else [];
  }

  lemma LookPhase(s: State, s': State, t: Tid) returns (es: seq<Event>)
    requires LookNext(s, s', t)
    ensures PhaseStep(s, s', t, es)
  {
    match s.threads[t].pc
    case PopConfirm(a) => es := PopConfirmPhase(s, s', t, a);
    case PopCas(a, next) => es := PopCasPhase(s, s', t, a, next);
    case _ => es := [];
  }

  lemma PopScanPhase(s: State, s': State, t: Tid, a: Addr, res: Value, i: nat)
    requires DoPopScan(s, s', t, a, res, i)
    ensures PhaseStep(s, s', t, [])
  {
  }

  lemma PopWrapPhase(s: State, s': State, t: Tid, a: Addr, res: Value, r: Addr)
    requires DoPopWrap(s, s', t, a, res, r)
    ensures PhaseStep(s, s', t, [])
  {
  }

  lemma DisposePhase(s: State, s': State, t: Tid)
    requires DisposeNext(s, s', t)
    ensures PhaseStep(s, s', t, [])
  {
    match s.threads[t].pc
    case PopScan(a, res, i) => PopScanPhase(s, s', t, a, res, i);
    case PopWrap(a, res) =>
      var r :| DoPopWrap(s, s', t, a, res, r);
      PopWrapPhase(s, s', t, a, res, r);
    case _ =>
  }

  lemma SweepNextPhase(s: State, s': State, t: Tid, current: Addr, res: Value)
    requires DoSweepNext(s, s', t, current, res)
    ensures PhaseStep(s, s', t, if current == NULL then [RetPop(t, res)] else [])
  {
    if current != NULL {
      assert PhaseStep(s, s', t, []);
    } else {
      assert PhaseStep(s, s', t, [RetPop(t, res)]);
    }
  }

  lemma SweepScanPhase(s: State, s': State, t: Tid, current: Addr, next: Addr, node: Addr, res: Value, i: nat)
    requires DoSweepScan(s, s', t, current, next, node, res, i)
    ensures PhaseStep(s, s', t, [])
  {
  }

  lemma AddPhase(s: State, s': State, t: Tid, r: Addr, res: Value, after: After)
    requires DoAddLoad(s, s', t, r, res, after) || DoAddCas(s, s', t, r, res, after)
    ensures PhaseStep(s, s', t, [])
  {
  }

  lemma RetirePhase(s: State, s': State, t: Tid) returns (es: seq<Event>)
    requires RetireNext(s, s', t)
    ensures PhaseStep(s, s', t, es)
  {
    hide Nth;
    es := [];
    match s.threads[t].pc
    case AddLoad(r, res, after) => AddPhase(s, s', t, r, res, after);
    case AddCas(r, res, after) => AddPhase(s, s', t, r, res, after);
    case SweepNext(current, res) =>
      SweepNextPhase(s, s', t, current, res);
      es := if current == NULL then [RetPop(t, res)] else [];
    case SweepScan(current, next, node, res, i) => SweepScanPhase(s, s', t, current, next, node, res, i);
    case _ =>
  }

  /** Every transition appends events of its own thread, if any, and moves that thread's phase along them. */
  lemma StepPhase(s: State, s': State, t: Tid) returns (es: seq<Event>)
    requires Next(s, s', t)
    ensures PhaseStep(s, s', t, es)
  {
    if PushNext(s, s', t) {
      es := PushPhase(s, s', t);
    } else if SlotNext(s, s', t) {
      es := SlotPhase(s, s', t);
    } else if LookNext(s, s', t) {
      es := LookPhase(s, s', t);
    } else if DisposeNext(s, s', t) {
      DisposePhase(s, s', t);
      es := [];
    } else {
      es := RetirePhase(s, s', t);
    }
  }

  lemma PhasesNext(s: State, s': State, t: Tid)
    requires PhasesOk(s) && HoldersOk(s') && s'.own.Keys == s'.heap.Keys && Next(s, s', t)
    ensures PhasesOk(s')
  {
    var es := StepPhase(s, s', t);
    PhasesFromStep(s, s', t, es);
  }

  /* ----- every state of every run ----- */

  ghost predicate Good(s: State) {
    Inv(s) && ReplayOk(s) && PhasesOk(s)
  }

  lemma GoodNext(s: State, s': State, t: Tid)
    requires Good(s) && Next(s, s', t)
    ensures Good(s')
  {
    InvNext(s, s', t);
    ReplayNext(s, s', t);
    PhasesNext(s, s', t);
  }

  lemma {:induction false} RunGood(run: Run<State>)
    requires IsRun(run)
    ensures Good(run.s)
  {
    match run
    case Start(s) =>
      InitInv(s);
      assert Contents(s.heap, s.stack) == [];
    case Then(before, s) =>
      RunGood(before);
      var t :| Next(before.s, s, t);
      GoodNext(before.s, s, t);
  }

  /* ----- theorems ----- */

  /** The stack nodes that the next step of a thread dereferences or deletes. */
  function Touches(pc: PC): set<Addr> {
    match pc
    case PushLoad(n) => {n}
    case PushCas(n) => {n}
    case PopNext(oldHead) => {oldHead}
    case PopData(oldHead) => {oldHead}
    case PopScan(oldHead, _, i) => if i >= MAX_HAZARD_POINTERS then {oldHead} else {}
    case SweepScan(_, _, node, _, i) => if i >= MAX_HAZARD_POINTERS then {node} else {}
    case _ => {}
  }

  /** The retired nodes that the next step of a thread dereferences or deletes. */
  function TouchesRetired(pc: PC): set<Addr> {
    match pc
    case AddLoad(r, _, _) => {r}
    case AddCas(r, _, _) => {r}
    case SweepNext(current, _) => if current == NULL then {} else {current}
    case SweepScan(current, _, _, _, i) => if i >= MAX_HAZARD_POINTERS then {current} else {}
    case _ => {}
  }

  lemma HeldIsAllocated(s: State, t: Tid)
    requires StackOk(s) && HoldersOk(s) && t < |s.threads|
    ensures Holding(s.threads[t].pc, t).Some? ==> Holding(s.threads[t].pc, t).value.0 in s.heap
  {
    hide IsStackChain, Distinct;
    assert Holding(s.threads[t].pc, t).Some? ==> Holding(s.threads[t].pc, t).value.0 in s.own;
  }

  lemma CarriedIsAllocated(s: State, t: Tid)
    requires CarriersOk(s) && ListedOk(s) && PendingOk(s) && t < |s.threads|
    ensures TouchesRetired(s.threads[t].pc) <= s.retiredHeap.Keys
  {
    var th := s.threads[t];
    assert Carrying(s.retiredHeap, th.pc, th.carried);
    assert th.carried != [] ==> th.carried[0] in s.retiredHeap;
    hide CarriersOk, PendingOk, ListedOk;
  }

  lemma ScannedIsAllocated(s: State, t: Tid)
    requires StackOk(s) && WrapsOk(s) && PendingOk(s) && t < |s.threads| && s.threads[t].pc.SweepScan?
    ensures s.threads[t].pc.node in s.heap
  {
    hide IsStackChain, Distinct, HeadAndTail;
    assert Carrying(s.retiredHeap, s.threads[t].pc, s.threads[t].carried);
  }

  /** No thread ever dereferences or deletes a node that is not allocated. */
  lemma {:induction false} NoUseAfterFree(run: Run<State>, t: Tid)
    requires IsRun(run) && t < |run.s.threads|
    ensures Touches(run.s.threads[t].pc) <= run.s.heap.Keys
    ensures TouchesRetired(run.s.threads[t].pc) <= run.s.retiredHeap.Keys
  {
    hide IsRun, ReplayOk, PhasesOk, SlotsOk, ScansOk, StackOk, HoldersOk, WrapsOk, ListedOk, CarriersOk, PendingOk;
    RunGood(run);
    var s := run.s;
    assert ConfirmedAt(s, t);
    HeldIsAllocated(s, t);
    CarriedIsAllocated(s, t);
    if s.threads[t].pc.SweepScan? {
      ScannedIsAllocated(s, t);
    }
  }

  /** From the confirming load until the slot changes, the confirmed node stays allocated, whatever
      the other threads do and although `isInUse` reads the slots one at a time. */
  lemma {:induction false} ConfirmedStaysAllocated(run: Run<State>, t: Tid)
    requires IsRun(run) && t < |run.s.threads|
    requires Protects(run.s.threads[t].pc).Some?
    ensures Protects(run.s.threads[t].pc).value in run.s.heap
    ensures run.s.threads[t].slot.Some? && run.s.threads[t].slot.value < |run.s.slots|
    ensures run.s.slots[run.s.threads[t].slot.value] ==
            Slot(Some(t), Protects(run.s.threads[t].pc).value)
  {
    RunGood(run);
    assert ConfirmedAt(run.s, t);
  }

  /** Linearizability.  In every run, the events at the compare-and-swaps and confirming loads form a
      legal history of a LIFO stack, whose contents are the nodes reached from `head`; and every
      thread's events are calls, each followed by one linearization and the return it determines. */
  lemma {:induction false} Linearizable(run: Run<State>)
    requires IsRun(run)
    ensures forall k :: 0 <= k < |run.s.stack| ==> run.s.stack[k] in run.s.heap
    ensures IsStackChain(run.s.heap, run.s.head, run.s.stack)
    ensures Replay(run.s.log) == Some(Contents(run.s.heap, run.s.stack))
    ensures forall t :: 0 <= t < |run.s.threads| ==> PhaseOf(run.s.log, t) != Broken
  {
    RunGood(run);
    forall t | 0 <= t < |run.s.threads| ensures PhaseOf(run.s.log, t) != Broken {
      assert InPhase(run.s.heap, run.s.threads[t].pc, PhaseOf(run.s.log, t));
    }
  }

  /** No ABA: a compare-and-swap that takes `oldHead` off the stack installs the node that follows it
      at that moment, and the abstract stack loses exactly its top. */
  lemma {:induction false} PopInstallsSuccessor(run: Run<State>, t: Tid, oldHead: Addr, next: Addr)
    requires IsRun(run)
    requires At(run.s, t, PopCas(oldHead, next)) && run.s.head == oldHead
    ensures oldHead in run.s.heap && run.s.heap[oldHead].next == next
    ensures run.s.stack != [] && run.s.stack[0] == oldHead && next == Nth(run.s.stack, 1)
  {
    RunGood(run);
    assert ConfirmedAt(run.s, t);
    assert run.s.stack[0] == oldHead;
  }

  /** The places an allocated node can be in. */
  datatype Place = OnStack(i: nat) | WithPusher(t: Tid) | WithPopper(t: Tid) | OnList(i: nat) | WithSweeper(t: Tid, i: nat)

  ghost predicate IsAt(s: State, a: Addr, p: Place) {
    match p
    case OnStack(i) => i < |s.stack| && s.stack[i] == a
    case WithPusher(t) => t < |s.threads| && Building(s.threads[t].pc) == Some(a)
    case WithPopper(t) => t < |s.threads| && Removed(s.threads[t].pc) == Some(a)
    case OnList(i) =>
      i < |s.listed| && s.listed[i] in s.retiredHeap && s.retiredHeap[s.listed[i]].node == a
    case WithSweeper(t, i) =>
      t < |s.threads| && i < |s.threads[t].carried| && s.threads[t].carried[i] in s.retiredHeap
      && s.retiredHeap[s.threads[t].carried[i]].node == a
  }

  /** The owner mark that goes with a place. */
  ghost function OwnerAt(s: State, p: Place): Option<Owner> {
    match p
    case OnStack(_) => Some(InStack)
    case WithPusher(t) => Some(Pushing(t))
    case WithPopper(t) => Some(Popped(t))
    case OnList(i) => if i < |s.listed| then Some(Wrapped(s.listed[i])) else None
    case WithSweeper(t, i) =>
      if t < |s.threads| && i < |s.threads[t].carried| then Some(Wrapped(s.threads[t].carried[i])) else None
  }

  lemma PlaceHasOwner(s: State, a: Addr, p: Place)
    requires Inv(s) && IsAt(s, a, p)
    ensures a in s.heap && OwnerAt(s, p) == Some(s.own[a])
  {
    match p
    case WithPusher(t) => assert Holding(s.threads[t].pc, t) == Some((a, Pushing(t)));
    case WithPopper(t) => assert Holding(s.threads[t].pc, t) == Some((a, Popped(t)));
    case _ =>
  }

  /** Every allocated node is in exactly one place: private to one pusher, on the stack, with the
      thread that popped it, on the retired list, or detached by one sweep.  So it is deleted at most
      once, and concurrent sweeps neither lose nor duplicate a retired node. */
  lemma {:induction false} OnePlace(run: Run<State>, a: Addr)
    requires IsRun(run)
    ensures a in run.s.heap ==> exists p :: IsAt(run.s, a, p)
    ensures forall p, q :: IsAt(run.s, a, p) && IsAt(run.s, a, q) ==> a in run.s.heap && p == q
  {
    RunGood(run);
    var s := run.s;
    if a in s.heap {
      var p := SomePlace(s, a);
      assert IsAt(s, a, p);
    }
    forall p, q | IsAt(s, a, p) && IsAt(s, a, q) ensures a in s.heap && p == q {
      PlaceHasOwner(s, a, p);
      PlaceHasOwner(s, a, q);
      SamePlace(s, p, q);
    }
  }

  lemma SomeListPlace(s: State, a: Addr, r: Addr) returns (p: Place)
    requires WrapsOk(s) && ListedOk(s) && CarriersOk(s) && a in s.own && s.own[a] == Wrapped(r)
    ensures IsAt(s, a, p)
  {
    assert r in s.retiredHeap && s.retiredHeap[r].node == a && r in s.listOwn;
    match s.listOwn[r]
    case Listed =>
      var i :| 0 <= i < |s.listed| && s.listed[i] == r;
      p := OnList(i);
    case Carried(t) =>
      var i :| 0 <= i < |s.threads[t].carried| && s.threads[t].carried[i] == r;
      p := WithSweeper(t, i);
  }

  lemma SomePlace(s: State, a: Addr) returns (p: Place)
    requires Inv(s) && a in s.heap
    ensures IsAt(s, a, p)
  {
    hide SlotsOk, WrapsOk, ListedOk, CarriersOk, PendingOk, ConfirmedOk, ScansOk, IsStackChain, Distinct;
    match s.own[a]
    case InStack =>
      var i :| 0 <= i < |s.stack| && s.stack[i] == a;
      p := OnStack(i);
    case Pushing(t) => p := WithPusher(t);
    case Popped(t) => p := WithPopper(t);
    case Wrapped(r) => p := SomeListPlace(s, a, r);
  }

  lemma SamePlace(s: State, p: Place, q: Place)
    requires Inv(s) && OwnerAt(s, p).Some? && OwnerAt(s, p) == OwnerAt(s, q)
    requires exists a :: IsAt(s, a, p) && IsAt(s, a, q)
    ensures p == q
  {
    hide SlotsOk, PendingOk, ConfirmedOk, ScansOk, IsStackChain, IsRetiredChain, HoldersOk, WrapsOk;
    match (p, q)
    case (OnList(i), OnList(j)) =>
      assert s.listed[i] == s.listed[j];
    case (WithSweeper(t, i), WithSweeper(u, j)) =>
      assert s.listOwn[s.threads[t].carried[i]] == Carried(t);
      assert s.listOwn[s.threads[u].carried[j]] == Carried(u);
    case _ =>
  }
}

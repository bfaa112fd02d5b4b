/** The code of the lock-free stack, run by one thread `t` while other threads interfere.  Every
    atomic access is a step of the transition system, so each execution of these methods is a run
    of it; the loops end because each retry is paid for by a change made by another thread. */
module HazardStack {
  import opened Options
  import opened Runs
  import opened HazardModel
  import opened HazardInvariant
  import opened HazardTheorems

  datatype PopResult = Ok(value: Value) | StackEmpty | NoHazardPointer

  /** `later` continues `run` with steps of threads other than `t`. */
  ghost predicate Others(run: Run<State>, later: Run<State>, t: Tid) {
    later == run || (later.Then? && Others(run, later.before, t) && StepOfOther(later.before.s, later.s, t))
  }

  ghost predicate StepOfOther(s: State, s': State, t: Tid) {
    exists u :: u != t && Next(s, s', u)
  }

  /** How often `head` or `RetiredNodes` changes in `later` after its prefix `run`. */
  ghost function Changes(run: Run<State>, later: Run<State>): nat {
    if later == run || later.Start? then 0
    else
      Changes(run, later.before)
      + if later.s.head != later.before.s.head || later.s.retiredHead != later.before.s.retiredHead then 1 else 0
  }

  /** What a thread can rely on while others run: its own record, the nodes it builds or carries. */
  ghost predicate Mine(s: State, s': State, t: Tid) {
    && t < |s.threads| == |s'.threads|
    && s'.threads[t] == s.threads[t]
    && (Building(s.threads[t].pc).Some? ==>
          var n := Building(s.threads[t].pc).value;
          n in s.heap && n in s'.heap && s'.heap[n] == s.heap[n])
    && (forall i :: 0 <= i < |s.threads[t].carried| ==>
          var r := s.threads[t].carried[i];
          r in s.retiredHeap && r in s'.retiredHeap && s'.retiredHeap[r] == s.retiredHeap[r])
  }

  lemma MineFrame(s: State, s': State, t: Tid, u: Tid)
    requires Inv(s) && OnlyThread(s, s', u) && u != t && t < |s.threads|
    requires forall a :: a in s.own && s.own[a] == Pushing(t) && a in s.heap ==>
               a in s'.heap && s'.heap[a] == s.heap[a]
    requires forall r :: r in s.listOwn && s.listOwn[r] == Carried(t) && r in s.retiredHeap ==>
               r in s'.retiredHeap && s'.retiredHeap[r] == s.retiredHeap[r]
    ensures Mine(s, s', t)
  {
    hide SlotsOk, WrapsOk, ConfirmedOk, ScansOk, IsStackChain, Distinct;
    assert Holding(s.threads[t].pc, t).Some? ==> Holding(s.threads[t].pc, t).value.0 in s.own;
  }

  lemma MinePush(s: State, s': State, t: Tid, u: Tid)
    requires Inv(s) && PushNext(s, s', u) && u != t && t < |s.threads|
    ensures Mine(s, s', t)
  {
    hide SlotsOk, StackOk, WrapsOk, RetiredOk, ConfirmedOk, ScansOk;
    assert Holding(s.threads[u].pc, u).Some? ==> s.own[Holding(s.threads[u].pc, u).value.0] == Pushing(u);
    MineFrame(s, s', t, u);
  }

  lemma MineSlot(s: State, s': State, t: Tid, u: Tid)
    requires Inv(s) && SlotNext(s, s', u) && u != t && t < |s.threads|
    ensures Mine(s, s', t)
  {
    hide SlotsOk, StackOk, WrapsOk, RetiredOk, ConfirmedOk, ScansOk;
    SlotNextIsQuiet(s, s', u);
    MineFrame(s, s', t, u);
  }

  lemma LookKeepsNodes(s: State, s': State, u: Tid)
    requires LookNext(s, s', u)
    ensures OnlyThread(s, s', u) && s'.heap == s.heap && s'.retiredHeap == s.retiredHeap
  {
    hide Nth;
  }

  lemma MineLook(s: State, s': State, t: Tid, u: Tid)
    requires Inv(s) && LookNext(s, s', u) && u != t && t < |s.threads|
    ensures Mine(s, s', t)
  {
    hide SlotsOk, StackOk, WrapsOk, RetiredOk, ConfirmedOk, ScansOk, Nth;
    LookKeepsNodes(s, s', u);
    hide LookNext;
    MineFrame(s, s', t, u);
  }

  lemma MinePopScan(s: State, s': State, t: Tid, u: Tid, a: Addr, res: Value, i: nat)
    requires HoldersOk(s) && DoPopScan(s, s', u, a, res, i)
    ensures OnlyThread(s, s', u) && s'.retiredHeap == s.retiredHeap
    ensures forall b :: b in s.own && s.own[b].Pushing? && b in s.heap ==> b in s'.heap && s'.heap[b] == s.heap[b]
  {
    assert Holding(s.threads[u].pc, u).value == (a, Popped(u));
  }

  lemma MinePopWrap(s: State, s': State, t: Tid, u: Tid, a: Addr, res: Value, r: Addr)
    requires Inv(s) && DoPopWrap(s, s', u, a, res, r) && u != t && t < |s.threads|
    ensures Mine(s, s', t)
  {
    hide SlotsOk, PendingOk, CarriersOk, ListedOk, WrapsOk, HoldersOk, StackOk, Nth;
    MineFrame(s, s', t, u);
  }

  lemma MineDispose(s: State, s': State, t: Tid, u: Tid)
    requires Inv(s) && DisposeNext(s, s', u) && u != t && t < |s.threads|
    ensures Mine(s, s', t)
  {
    hide SlotsOk, StackOk, WrapsOk, RetiredOk, ConfirmedOk, ScansOk;
    match s.threads[u].pc
    case PopScan(a, res, i) =>
      MinePopScan(s, s', t, u, a, res, i);
      MineFrame(s, s', t, u);
    case PopWrap(a, res) =>
      var r :| DoPopWrap(s, s', u, a, res, r);
      MinePopWrap(s, s', t, u, a, res, r);
    case _ =>
      DisposeNextIsQuiet(s, s', u);
      MineFrame(s, s', t, u);
  }

  /** Only retired nodes that `u` carries change, and only wrapped nodes are deleted. */
  ghost predicate OnlyCarried(s: State, s': State, u: Tid) {
    && OnlyThread(s, s', u)
    && (forall b :: b in s.own && s.own[b].Pushing? && b in s.heap ==> b in s'.heap && s'.heap[b] == s.heap[b])
    && (forall r :: r in s.listOwn && s.listOwn[r] != Carried(u) && r in s.retiredHeap ==>
          r in s'.retiredHeap && s'.retiredHeap[r] == s.retiredHeap[r])
  }

  lemma AddOnlyCarried(s: State, s': State, u: Tid, r: Addr, res: Value, after: After)
    requires CarriersOk(s) && PendingOk(s)
    requires DoAddLoad(s, s', u, r, res, after) || DoAddCas(s, s', u, r, res, after)
    ensures OnlyCarried(s, s', u)
  {
    hide Nth, IsRetiredChain;
    CarriedOwner(s, u, r);
  }

  lemma SweepOnlyCarried(s: State, s': State, u: Tid, current: Addr, next: Addr, node: Addr, res: Value, i: nat)
    requires CarriersOk(s) && PendingOk(s) && WrapsOk(s) && DoSweepScan(s, s', u, current, next, node, res, i)
    ensures OnlyCarried(s, s', u)
  {
    hide Nth, IsRetiredChain;
    assert Carrying(s.retiredHeap, s.threads[u].pc, s.threads[u].carried);
    assert s.listOwn[s.threads[u].carried[0]] == Carried(u);
  }

  lemma RetireOnlyCarried(s: State, s': State, u: Tid)
    requires CarriersOk(s) && PendingOk(s) && WrapsOk(s) && RetireNext(s, s', u)
    ensures OnlyCarried(s, s', u)
  {
    match s.threads[u].pc
    case AddLoad(r, res, after) => AddOnlyCarried(s, s', u, r, res, after);
    case AddCas(r, res, after) => AddOnlyCarried(s, s', u, r, res, after);
    case SweepScan(current, next, node, res, i) => SweepOnlyCarried(s, s', u, current, next, node, res, i);
    case _ =>
  }

  lemma MineRetire(s: State, s': State, t: Tid, u: Tid)
    requires Inv(s) && RetireNext(s, s', u) && u != t && t < |s.threads|
    ensures Mine(s, s', t)
  {
    RetireOnlyCarried(s, s', u);
    MineFrame(s, s', t, u);
  }

  lemma MineNext(s: State, s': State, t: Tid, u: Tid)
    requires Inv(s) && Next(s, s', u) && u != t && t < |s.threads|
    ensures Mine(s, s', t)
  {
    if PushNext(s, s', u) {
      MinePush(s, s', t, u);
    } else if SlotNext(s, s', u) {
      MineSlot(s, s', t, u);
    } else if LookNext(s, s', u) {
      MineLook(s, s', t, u);
    } else if DisposeNext(s, s', u) {
      MineDispose(s, s', t, u);
    } else {
      MineRetire(s, s', t, u);
    }
  }

  lemma MineSelf(s: State, t: Tid)
    requires Inv(s) && t < |s.threads|
    ensures Mine(s, s, t)
  {
    assert Holding(s.threads[t].pc, t).Some? ==> Holding(s.threads[t].pc, t).value.0 in s.own;
  }

  lemma MineTrans(s: State, s': State, s'': State, t: Tid)
    requires Mine(s, s', t) && Mine(s', s'', t)
    ensures Mine(s, s'', t)
  {
  }

  lemma OtherEvents(s: State, s': State, t: Tid, u: Tid)
    requires Next(s, s', u) && u != t
    ensures EventsOf(s'.log, t) == EventsOf(s.log, t)
  {
    hide Next;
    var es := StepPhase(s, s', u);
    EventsOfOther(s.log, es, t, u);
  }

  lemma RunExtends(run: Run<State>, s': State, t: Tid)
    requires IsRun(run) && StepOfOther(run.s, s', t) && t < |run.s.threads|
    ensures IsRun(Then(run, s')) && Mine(run.s, s', t)
    ensures EventsOf(s'.log, t) == EventsOf(run.s.log, t)
  {
    var u :| u != t && Next(run.s, s', u);
    RunGood(run);
    MineNext(run.s, s', t, u);
    assert Steps(run.s, s');
    OtherEvents(run.s, s', t, u);
  }

  /** Steps of other threads leave `t` its own; without a counted change the list heads stay. */
  lemma {:induction false} OthersKeepMine(run: Run<State>, later: Run<State>, t: Tid)
    requires IsRun(run) && Others(run, later, t) && t < |run.s.threads|
    ensures IsRun(later)
    ensures Mine(run.s, later.s, t)
    ensures Changes(run, later) == 0 ==> later.s.head == run.s.head && later.s.retiredHead == run.s.retiredHead
    ensures EventsOf(later.s.log, t) == EventsOf(run.s.log, t)
    decreases later
  {
    if later == run {
      RunGood(run);
      MineSelf(run.s, t);
    } else {
      OthersKeepMine(run, later.before, t);
      RunExtends(later.before, later.s, t);
      MineTrans(run.s, later.before.s, later.s, t);
    }
  }

  ghost predicate SameAt<T>(m: map<Addr, T>, m': map<Addr, T>, a: Addr) {
    a in m && a in m' && m'[a] == m[a]
  }

  lemma ContinuesSelf(run: Run<State>)
    ensures Continues(run, run)
  {
  }

  /** Between `start` and `run` thread `t` looked at slot `j` and found it taken. */
  ghost predicate FoundTaken(start: Run<State>, run: Run<State>, t: Tid, j: nat) {
    exists r: Run<State> :: Continues(start, r) && Continues(r, run)
                            && At(r.s, t, Claim(j)) && j < |r.s.slots| && r.s.slots[j].id.Some?
  }

  lemma FoundStays(start: Run<State>, run: Run<State>, later: Run<State>, t: Tid, n: nat)
    requires forall j :: 0 <= j < n ==> FoundTaken(start, run, t, j)
    requires forall r :: Continues(r, run) ==> Continues(r, later)
    ensures forall j :: 0 <= j < n ==> FoundTaken(start, later, t, j)
  {
    hide Continues;
    forall j | 0 <= j < n ensures FoundTaken(start, later, t, j) {
      assert FoundTaken(start, run, t, j);
    }
  }

  /** Between `start` and `run` slot `j` was read, and it held `node` or not. */
  ghost predicate Seen(start: Run<State>, run: Run<State>, j: nat, node: Addr, hit: bool) {
    exists r: Run<State> :: Continues(start, r) && Continues(r, run)
                            && j < |r.s.slots| && (hit <==> r.s.slots[j].pointer == node)
  }

  lemma SeenStays(start: Run<State>, run: Run<State>, later: Run<State>, node: Addr)
    requires forall r :: Continues(r, run) ==> Continues(r, later)
    ensures forall j, hit :: Seen(start, run, j, node, hit) ==> Seen(start, later, j, node, hit)
  {
    hide Continues;
  }

  lemma {:induction false} FreshAddress(used: set<Addr>) returns (a: Addr)
    ensures a != NULL && forall b :: b in used ==> b < a
    decreases used
  {
    a := 1;
    if b :| b in used {
      a := FreshAddress(used - {b});
      a := if b < a then a else b + 1;
      forall c | c in used ensures c < a {
        assert c == b || c in used - {b};
      }
    }
  }

  /** The program counter of `isInUse(node)` at slot `i`, called by topAndPop or by a sweep. */
  ghost function ScanAt(node: Addr, res: Value, sweep: Option<(Addr, Addr)>, i: nat): PC {
    match sweep
    case None => PopScan(node, res, i)
    case Some((current, next)) => SweepScan(current, next, node, res, i)
  }

  /** Where that call goes on when it returns true. */
  ghost function InUseAt(node: Addr, res: Value, sweep: Option<(Addr, Addr)>): PC {
    match sweep
    case None => PopWrap(node, res)
    case Some((current, next)) => AddLoad(current, res, ThenNext(next))
  }

  lemma SlotInRange(run: Run<State>, t: Tid)
    requires IsRun(run) && t < |run.s.threads|
    ensures run.s.threads[t].slot.Some? ==> run.s.threads[t].slot.value < MAX_HAZARD_POINTERS
    ensures NeedsSlot(run.s.threads[t].pc) ==> run.s.threads[t].slot.Some?
  {
    RunGood(run);
  }

  ghost function AfterAdd(after: After, res: Value): PC {
    if after.ThenSweep? then SweepTake(res) else SweepNext(after.next, res)
  }

  lemma WhereNext(node: Addr, res: Value, current: Addr, next: Addr)
    ensures InUseAt(node, res, Some((current, next))) == AddLoad(current, res, ThenNext(next))
    ensures AfterAdd(ThenNext(next), res) == SweepNext(next, res)
    ensures AfterAdd(ThenSweep, res) == SweepTake(res)
  {
  }

  lemma PopInDomain(run: Run<State>, t: Tid, oldHead: Addr, next: Addr)
    requires IsRun(run) && At(run.s, t, PopCas(oldHead, next))
    ensures oldHead in run.s.heap
  {
    RunGood(run);
    assert ConfirmedAt(run.s, t);
  }

  lemma HoldsFirst(run: Run<State>, t: Tid)
    requires IsRun(run) && t < |run.s.threads|
    requires run.s.threads[t].pc.AddLoad? || run.s.threads[t].pc.AddCas?
    ensures run.s.threads[t].carried != [] && run.s.threads[t].carried[0] == run.s.threads[t].pc.r
  {
    RunGood(run);
    assert Carrying(run.s.retiredHeap, run.s.threads[t].pc, run.s.threads[t].carried);
  }

  lemma CarriesSome(run: Run<State>, t: Tid, current: Addr, res: Value)
    requires IsRun(run) && At(run.s, t, SweepNext(current, res)) && current != NULL
    ensures run.s.threads[t].carried != []
    ensures |Rest(run.s.threads[t].carried)| < |run.s.threads[t].carried|
  {
    RunGood(run);
    assert Carrying(run.s.retiredHeap, run.s.threads[t].pc, run.s.threads[t].carried);
  }

  /** What a call of `topAndPop` with this outcome adds to the events of its thread. */
  function PopEvents(t: Tid, r: PopResult): seq<Event> {
    match r
    case Ok(v) => [CallPop(t), DidPop(t, v), RetPop(t, v)]
    case StackEmpty => [CallPop(t), DidEmpty(t), ThrowEmpty(t)]
    case NoHazardPointer => [CallPop(t), ThrowNoSlot(t)]
  }

  lemma PopEventsAre(t: Tid)
    ensures forall v :: PopEvents(t, Ok(v)) == [CallPop(t), DidPop(t, v), RetPop(t, v)]
    ensures PopEvents(t, StackEmpty) == [CallPop(t), DidEmpty(t), ThrowEmpty(t)]
    ensures PopEvents(t, NoHazardPointer) == [CallPop(t), ThrowNoSlot(t)]
  {
  }

  lemma PopReturnsPopped(run: Run<State>, t: Tid, past: seq<Event>, w: Value, v: Value)
    requires IsRun(run) && t < |run.s.threads| && PhaseOf(past, t) == Quiet
    requires EventsOf(run.s.log, t) == past + [CallPop(t), DidPop(t, w), RetPop(t, v)]
    ensures v == w
  {
    Linearizable(run);
    PhaseByEvents(run.s.log, t);
    PhaseAppend(past, CallPop(t), t);
    PhaseAppend(past + [CallPop(t)], DidPop(t, w), t);
    PhaseAppend(past + [CallPop(t)] + [DidPop(t, w)], RetPop(t, v), t);
    assert past + [CallPop(t), DidPop(t, w), RetPop(t, v)] == past + [CallPop(t)] + [DidPop(t, w)] + [RetPop(t, v)];
    hide IsStackChain, Contents, Replay;
  }

  class LockFreeStack {
    var heap: map<Addr, Node>
    var head: Addr
    const slots: array<Slot>
    var retiredHeap: map<Addr, RetiredNode>
    var retiredNodes: Addr
    var threadSlot: map<Tid, nat>          // the thread-local HazardPointerOwner
    ghost var run: Run<State>
    ghost var budget: nat                  // changes of the two list heads other threads still make

    ghost predicate Valid()
      reads this, slots
    {
      && IsRun(run)
      && slots.Length == MAX_HAZARD_POINTERS
      && run.s.heap == heap && run.s.head == head && run.s.slots == slots[..]
      && run.s.retiredHeap == retiredHeap && run.s.retiredHead == retiredNodes
      && (forall t :: 0 <= t < |run.s.threads| ==>
            run.s.threads[t].slot == if t in threadSlot then Some(threadSlot[t]) else None)
    }

    constructor (ghost threads: nat, ghost budget: nat)
      ensures Valid() && |run.s.threads| == threads && this.budget == budget
      ensures forall t :: 0 <= t < threads ==> At(run.s, t, Idle)
    {
      heap, head, retiredHeap, retiredNodes, threadSlot := map[], NULL, map[], NULL, map[];
      slots := new Slot[MAX_HAZARD_POINTERS](_ => Slot(None, NULL));
      ghost var initial := State(map[], NULL, seq(MAX_HAZARD_POINTERS, i => Slot(None, NULL)), map[], NULL,
                                 seq(threads, i => Thread(Idle, None, [])), [], [], map[], map[], []);
      run, this.budget := Start(initial), budget;
      new;
      assert slots[..] == initial.slots;
    }

    /** Other threads run: any finite number of their steps, in any order. */
    method Interfere(ghost t: Tid, ghost pc: PC)
      requires Ready(t, pc)
      modifies this, slots
      ensures Ready(t, pc) && Others(old(run), run, t)
      ensures budget + Changes(old(run), run) <= old(budget)
      ensures forall r :: Continues(r, old(run)) ==> Continues(r, run)
      ensures Events(t) == old(Events(t))
      ensures budget == old(budget) ==> head == old(head) && retiredNodes == old(retiredNodes)
      ensures Building(pc).Some? ==> SameAt(old(heap), heap, Building(pc).value)
      ensures budget <= old(budget) && Carried(t) == old(Carried(t))
      ensures forall i :: 0 <= i < |Carried(t)| ==>
                SameAt(old(retiredHeap), retiredHeap, Carried(t)[i])
    {
      OthersKeepMine(run, run, t);
    }

    /** The same while `t` holds the new node `n`. */
    method InterferePushing(ghost t: Tid, ghost pc: PC, ghost n: Addr)
      requires Ready(t, pc) && (pc == PushLoad(n) || pc == PushCas(n))
      modifies this, slots
      ensures Ready(t, pc) && budget <= old(budget)
      ensures forall r :: Continues(r, old(run)) ==> Continues(r, run)
      ensures Events(t) == old(Events(t))
      ensures budget == old(budget) ==> head == old(head)
      ensures n in old(heap) && n in heap && heap[n] == old(heap)[n]
    {
      Interfere(t, pc);
    }

    ghost function Carried(t: Tid): seq<Addr>
      reads this
    {
      if t < |run.s.threads| then run.s.threads[t].carried else []
    }

    /** What thread `t` has called, linearized and returned so far. */
    ghost function Events(t: Tid): seq<Event>
      reads this`run
    {
      EventsOf(run.s.log, t)
    }

    ghost predicate Ready(t: Tid, pc: PC)
      reads this, slots
    {
      Valid() && At(run.s, t, pc)
    }

    ghost method Commit(t: Tid, s': State)
      requires IsRun(run) && Next(run.s, s', t)
      modifies this`run
      ensures IsRun(run) && run.s == s'
      ensures forall r :: Continues(r, old(run)) ==> Continues(r, run)
    {
      assert Steps(run.s, s');
      run := Then(run, s');
    }

    /* ----- push ----- */

    method NewNode(t: Tid, val: Value) returns (n: Addr)
      requires Ready(t, Idle)
      modifies this`heap, this`run
      ensures Ready(t, PushLoad(n))
      ensures forall r :: Continues(r, old(run)) ==> Continues(r, run)
      ensures Events(t) == old(Events(t)) + [CallPush(t, val)]
      ensures n in heap && heap[n].data == val
    {
      hide IsRun, EventsOf;
      ghost var free := FreshAddress(heap.Keys);
      assert free !in heap;
      n :| n != NULL && n !in heap;
      heap := heap[n := Node(val, NULL)];
      ghost var s := run.s;
      ghost var s' := s.(heap := heap, own := s.own[n := Pushing(t)], threads := Go(s, t, PushLoad(n)),
                         log := s.log + [CallPush(t, val)]);
      assert StartPush(s, s', t, val, n);
      EventsAppend(s.log, CallPush(t, val), t);
      assert PushNext(s, s', t);
      Commit(t, s');
    }

    method LinkNode(t: Tid, n: Addr)
      requires Ready(t, PushLoad(n))
      modifies this`heap, this`run
      ensures Ready(t, PushCas(n))
      ensures forall r :: Continues(r, old(run)) ==> Continues(r, run)
      ensures Events(t) == old(Events(t))
      ensures n in heap && n in old(heap) && heap[n] == old(heap)[n].(next := head)
    {
      NoUseAfterFree(run, t);
      heap := heap[n := heap[n].(next := head)];
      Commit(t, run.s.(heap := heap, threads := Go(run.s, t, PushCas(n))));
    }

    method CasHeadPush(t: Tid, n: Addr) returns (ok: bool)
      requires Ready(t, PushCas(n))
      modifies this`heap, this`head, this`run
      ensures Ready(t, if ok then Idle else PushCas(n))
      ensures forall r :: Continues(r, old(run)) ==> Continues(r, run)
      ensures n in heap && n in old(heap) && (ok <==> old(head) == old(heap)[n].next)
      ensures ok ==> head == n && heap == old(heap)
      ensures Events(t) == old(Events(t)) + if ok then [DidPush(t, heap[n].data), RetPush(t)] else []
      ensures !ok ==> heap == old(heap)[n := old(heap)[n].(next := head)]
    {
      NoUseAfterFree(run, t);
      ghost var s := run.s;
      ok := head == heap[n].next;
      if ok {
        head := n;
        EventsAppendAll(s.log, [DidPush(t, s.heap[n].data), RetPush(t)], t);
        Commit(t, s.(head := n, stack := [n] + s.stack, own := s.own[n := InStack], threads := Go(s, t, Idle),
                     log := s.log + [DidPush(t, s.heap[n].data), RetPush(t)]));
      } else {
        heap := heap[n := heap[n].(next := head)];
        Commit(t, s.(heap := heap));
      }
    }

    /** `push`, once.  It retries only after another thread has changed `head`. */
    method Push(t: Tid, val: Value)
      requires Ready(t, Idle)
      modifies this, slots
      ensures Ready(t, Idle) && Continues(old(run), run)
      ensures Events(t) == old(Events(t)) + [CallPush(t, val), DidPush(t, val), RetPush(t)]
    {
      hide *;
      assert Continues(run, run) by { ContinuesSelf(run); }
      var n := NewNode(t, val);
      InterferePushing(t, PushLoad(n), n);
      LinkNode(t, n);
      InterferePushing(t, PushCas(n), n);
      var ok := CasHeadPush(t, n);
      while !ok
        invariant Ready(t, if ok then Idle else PushCas(n)) && Continues(old(run), run)
        invariant n in heap && heap[n].data == val && (!ok ==> heap[n].next == head)
        invariant Events(t) == old(Events(t)) + [CallPush(t, val)] + if ok then [DidPush(t, val), RetPush(t)] else []
        decreases budget, !ok
      {
        InterferePushing(t, PushCas(n), n);
        ok := CasHeadPush(t, n);
      }
    }

    /* ----- hazard slots ----- */

    method BeginPop(t: Tid) returns (known: bool)
      requires Ready(t, Idle)
      modifies this`run
      ensures Ready(t, if known then PopLoad else Claim(0)) && budget == old(budget)
      ensures forall r :: Continues(r, old(run)) ==> Continues(r, run)
      ensures Events(t) == old(Events(t)) + [CallPop(t)]
    {
      ghost var s := run.s;
      known := t in threadSlot;
      EventsAppend(s.log, CallPop(t), t);
      Commit(t, s.(threads := Go(s, t, if s.threads[t].slot.None? then Claim(0) else PopLoad),
                   log := s.log + [CallPop(t)]));
    }

    method TryClaim(t: Tid, i: nat, ghost start: Run<State>) returns (ok: bool)
      requires Ready(t, Claim(i)) && i < MAX_HAZARD_POINTERS && Continues(start, run)
      modifies this`run, this`threadSlot, slots
      ensures Ready(t, if ok then PopLoad else Claim(i + 1)) && budget == old(budget)
      ensures forall r :: Continues(r, old(run)) ==> Continues(r, run)
      ensures Events(t) == old(Events(t))
      ensures ok ==> t in threadSlot && threadSlot[t] == i
      ensures !ok ==> FoundTaken(start, run, t, i)
    {
      ghost var s := run.s;
      ok := slots[i].id == None;
      if ok {
        slots[i] := slots[i].(id := Some(t));
        threadSlot := threadSlot[t := i];
        Commit(t, s.(slots := s.slots[i := s.slots[i].(id := Some(t))],
                     threads := s.threads[t := Thread(PopLoad, Some(i), s.threads[t].carried)]));
      } else {
        Commit(t, s.(threads := Go(s, t, Claim(i + 1))));
      }
    }

    method GiveUp(t: Tid)
      requires Ready(t, Claim(MAX_HAZARD_POINTERS))
      modifies this`run
      ensures Ready(t, Idle)
      ensures forall r :: Continues(r, old(run)) ==> Continues(r, run)
      ensures Events(t) == old(Events(t)) + [ThrowNoSlot(t)]
    {
      ghost var s := run.s;
      EventsAppend(s.log, ThrowNoSlot(t), t);
      Commit(t, s.(threads := Go(s, t, Idle), log := s.log + [ThrowNoSlot(t)]));
    }

    /** The constructor of HazardPointerOwner: the slots are tried in order, and the first one found free is
        taken; or all were found taken. */
    method ClaimSlot(t: Tid) returns (ok: bool)
      requires Ready(t, Claim(0))
      modifies this, slots
      ensures Ready(t, if ok then PopLoad else Claim(MAX_HAZARD_POINTERS))
      ensures ok ==> t in threadSlot && threadSlot[t] < MAX_HAZARD_POINTERS
      ensures forall j :: 0 <= j < (if ok then threadSlot[t] else MAX_HAZARD_POINTERS) ==> FoundTaken(old(run), run, t, j)
      ensures forall r :: Continues(r, old(run)) ==> Continues(r, run)
      ensures Events(t) == old(Events(t))
    {
      hide *;
      ok := false;
      var i := 0;
      assert Continues(run, run) by { ContinuesSelf(run); }
      while i < MAX_HAZARD_POINTERS && !ok
        invariant i <= MAX_HAZARD_POINTERS
        invariant Ready(t, if ok then PopLoad else Claim(i))
        invariant ok ==> t in threadSlot && threadSlot[t] < MAX_HAZARD_POINTERS
        invariant forall j :: 0 <= j < (if ok then threadSlot[t] else i) ==> FoundTaken(old(run), run, t, j)
        invariant forall r :: Continues(r, old(run)) ==> Continues(r, run)
        invariant Events(t) == old(Events(t))
      {
        ghost var before := run;
        Interfere(t, Claim(i));
        FoundStays(old(run), before, run, t, i);
        before := run;
        ok := TryClaim(t, i, old(run));
        FoundStays(old(run), before, run, t, i);
        i := i + 1;
      }
    }

    /** The destructor of HazardPointerOwner, when the thread ends. */
    method ReleaseSlot(t: Tid)
      requires Ready(t, Idle) && t in threadSlot
      modifies this, slots
      ensures Ready(t, Idle) && t !in threadSlot
      ensures forall r :: Continues(r, old(run)) ==> Continues(r, run)
      ensures Events(t) == old(Events(t))
    {
      hide *;
      SetHazard(t, NULL, Idle, Exiting);
      Interfere(t, Exiting);
      FreeSlot(t);
    }

    /** Any store to the thread's own hazard pointer. */
    method SetHazard(t: Tid, p: Addr, ghost from: PC, ghost to: PC)
      requires Ready(t, from) && (from == Idle ==> t in threadSlot)
      requires || (from == PopPublish(p) && to == PopConfirm(p))
               || (p == NULL && from == Idle && to == Exiting)
               || (p == NULL && from.PopClear? && to == PopData(from.oldHead))
      modifies this`run, slots
      ensures Ready(t, to) && budget == old(budget)
      ensures forall r :: Continues(r, old(run)) ==> Continues(r, run)
      ensures Events(t) == old(Events(t))
    {
      SlotInRange(run, t);
      ghost var s := run.s;
      var k := threadSlot[t];
      slots[k] := slots[k].(pointer := p);
      Commit(t, s.(slots := SetPointer(s, t, p), threads := Go(s, t, to)));
    }

    method FreeSlot(t: Tid)
      requires Ready(t, Exiting)
      modifies this`run, this`threadSlot, slots
      ensures Ready(t, Idle) && t !in threadSlot
      ensures forall r :: Continues(r, old(run)) ==> Continues(r, run)
      ensures Events(t) == old(Events(t))
    {
      SlotInRange(run, t);
      ghost var s := run.s;
      var k := threadSlot[t];
      slots[k] := slots[k].(id := None);
      threadSlot := threadSlot - {t};
      Commit(t, s.(slots := s.slots[k := s.slots[k].(id := None)],
                   threads := s.threads[t := s.threads[t].(pc := Idle, slot := None)]));
    }

    /* ----- topAndPop ----- */

    method LoadHead(t: Tid) returns (h: Addr)
      requires Ready(t, PopLoad)
      modifies this`run
      ensures Ready(t, PopPublish(h)) && h == head && head == old(head) && budget == old(budget)
      ensures forall r :: Continues(r, old(run)) ==> Continues(r, run)
      ensures Events(t) == old(Events(t))
    {
      ghost var s := run.s;
      h := head;
      Commit(t, s.(threads := Go(s, t, PopPublish(h))));
    }

    /** The confirming load: go on, publish again, or throw. */
    method ConfirmHead(t: Tid, oldHead: Addr) returns (h: Addr)
      requires Ready(t, PopConfirm(oldHead))
      modifies this`run
      ensures h == head == old(head)
      ensures h != oldHead ==> Ready(t, PopPublish(h))
      ensures h == oldHead && h != NULL ==> Ready(t, PopNext(h))
      ensures h == oldHead == NULL ==> Ready(t, Idle)
      ensures forall r :: Continues(r, old(run)) ==> Continues(r, run)
      ensures Events(t) == old(Events(t)) + if h == oldHead == NULL then [DidEmpty(t), ThrowEmpty(t)] else []
    {
      ghost var s := run.s;
      h := head;
      if h != oldHead {
        Commit(t, s.(threads := Go(s, t, PopPublish(h))));
      } else if h == NULL {
        EventsAppendAll(s.log, [DidEmpty(t), ThrowEmpty(t)], t);
        Commit(t, s.(threads := Go(s, t, Idle), log := s.log + [DidEmpty(t), ThrowEmpty(t)]));
      } else {
        Commit(t, s.(threads := Go(s, t, PopNext(h))));
      }
    }

    method ReadNext(t: Tid, oldHead: Addr) returns (next: Addr)
      requires Ready(t, PopNext(oldHead))
      modifies this`run
      ensures Ready(t, PopCas(oldHead, next)) && head == old(head) && budget == old(budget)
      ensures forall r :: Continues(r, old(run)) ==> Continues(r, run)
      ensures Events(t) == old(Events(t))
    {
      NoUseAfterFree(run, t);
      next := heap[oldHead].next;
      Commit(t, run.s.(threads := Go(run.s, t, PopCas(oldHead, next))));
    }

    method CasHeadPop(t: Tid, oldHead: Addr, next: Addr) returns (ok: bool, h: Addr, ghost v: Value)
      requires Ready(t, PopCas(oldHead, next))
      modifies this`head, this`run
      ensures ok <==> old(head) == oldHead
      ensures h == old(head) && budget == old(budget)
      ensures ok ==> Ready(t, PopClear(oldHead))
      ensures !ok ==> Ready(t, PopPublish(h)) && head == h
      ensures forall r :: Continues(r, old(run)) ==> Continues(r, run)
      ensures Events(t) == old(Events(t)) + if ok then [DidPop(t, v)] else []
    {
      PopInDomain(run, t, oldHead, next);
      ghost var s := run.s;
      ok, h, v := head == oldHead, head, heap[oldHead].data;
      if ok {
        head := next;
        EventsAppend(s.log, DidPop(t, v), t);
        Commit(t, s.(head := next, stack := Rest(s.stack), own := s.own[oldHead := Popped(t)],
                     threads := Go(s, t, PopClear(oldHead)), log := s.log + [DidPop(t, s.heap[oldHead].data)]));
      } else {
        Commit(t, s.(threads := Go(s, t, PopPublish(h))));
      }
    }

    method ReadData(t: Tid, oldHead: Addr) returns (res: Value)
      requires Ready(t, PopData(oldHead))
      modifies this`run
      ensures Ready(t, ScanAt(oldHead, res, None, 0))
      ensures forall r :: Continues(r, old(run)) ==> Continues(r, run)
      ensures Events(t) == old(Events(t))
    {
      NoUseAfterFree(run, t);
      res := heap[oldHead].data;
      Commit(t, run.s.(threads := Go(run.s, t, PopScan(oldHead, res, 0))));
    }

    /** One round of `isInUse`. */
    method ReadSlot(t: Tid, node: Addr, ghost res: Value, ghost sweep: Option<(Addr, Addr)>, i: nat, ghost start: Run<State>)
      returns (hit: bool)
      requires Ready(t, ScanAt(node, res, sweep, i)) && i < MAX_HAZARD_POINTERS && Continues(start, run)
      modifies this`run
      ensures Ready(t, if hit then InUseAt(node, res, sweep) else ScanAt(node, res, sweep, i + 1))
      ensures Carried(t) == old(Carried(t)) && Seen(start, run, i, node, hit)
      ensures forall r :: Continues(r, old(run)) ==> Continues(r, run)
      ensures Events(t) == old(Events(t))
    {
      ghost var s := run.s;
      hit := slots[i].pointer == node;
      Commit(t, s.(threads := Go(s, t, if hit then InUseAt(node, res, sweep) else ScanAt(node, res, sweep, i + 1))));
    }

    /** `isInUse`: true as soon as one slot is found to hold the node; false when each slot was found not to. */
    method IsInUse(t: Tid, node: Addr, ghost res: Value, ghost sweep: Option<(Addr, Addr)>) returns (used: bool)
      requires Ready(t, ScanAt(node, res, sweep, 0))
      modifies this, slots
      ensures Ready(t, if used then InUseAt(node, res, sweep) else ScanAt(node, res, sweep, MAX_HAZARD_POINTERS))
      ensures used ==> exists j :: 0 <= j < MAX_HAZARD_POINTERS && Seen(old(run), run, j, node, true)
      ensures !used ==> forall j :: 0 <= j < MAX_HAZARD_POINTERS ==> Seen(old(run), run, j, node, false)
      ensures budget <= old(budget) && Carried(t) == old(Carried(t))
      ensures forall r :: Continues(r, old(run)) ==> Continues(r, run)
      ensures Events(t) == old(Events(t))
    {
      hide *;
      used := false;
      var i := 0;
      assert Continues(run, run) by { ContinuesSelf(run); }
      while i < MAX_HAZARD_POINTERS && !used
        invariant i <= MAX_HAZARD_POINTERS
        invariant Ready(t, if used then InUseAt(node, res, sweep) else ScanAt(node, res, sweep, i))
        invariant used ==> exists j :: 0 <= j < MAX_HAZARD_POINTERS && Seen(old(run), run, j, node, true)
        invariant !used ==> forall j :: 0 <= j < i ==> Seen(old(run), run, j, node, false)
        invariant budget <= old(budget) && Carried(t) == old(Carried(t))
        invariant forall r :: Continues(r, old(run)) ==> Continues(r, run)
        invariant Events(t) == old(Events(t))
      {
        ghost var before := run;
        Interfere(t, ScanAt(node, res, sweep, i));
        SeenStays(old(run), before, run, node);
        before := run;
        used := ReadSlot(t, node, res, sweep, i, old(run));
        SeenStays(old(run), before, run, node);
        i := i + 1;
      }
      ghost var before := run;
      Interfere(t, if used then InUseAt(node, res, sweep) else ScanAt(node, res, sweep, MAX_HAZARD_POINTERS));
      SeenStays(old(run), before, run, node);
    }

    method DeleteNode(t: Tid, node: Addr, ghost res: Value)
      requires Ready(t, ScanAt(node, res, None, MAX_HAZARD_POINTERS))
      modifies this`heap, this`run
      ensures Ready(t, SweepTake(res)) && node in old(heap)
      ensures forall r :: Continues(r, old(run)) ==> Continues(r, run)
      ensures Events(t) == old(Events(t))
    {
      NoUseAfterFree(run, t);
      heap := heap - {node};
      Commit(t, run.s.(heap := heap, own := run.s.own - {node}, threads := Go(run.s, t, SweepTake(res))));
    }

    /** `new RetiredNode(node)`. */
    method WrapNode(t: Tid, node: Addr, ghost res: Value) returns (r: Addr)
      requires Ready(t, InUseAt(node, res, None))
      modifies this`retiredHeap, this`run
      ensures Ready(t, AddLoad(r, res, ThenSweep))
      ensures forall r :: Continues(r, old(run)) ==> Continues(r, run)
      ensures Events(t) == old(Events(t))
    {
      ghost var free := FreshAddress(retiredHeap.Keys);
      assert free !in retiredHeap;
      r :| r != NULL && r !in retiredHeap;
      retiredHeap := retiredHeap[r := RetiredNode(node, NULL)];
      ghost var s := run.s;
      ghost var s' := s.(retiredHeap := retiredHeap, own := s.own[node := Wrapped(r)],
                         listOwn := s.listOwn[r := ListOwner.Carried(t)],
                         threads := GoCarrying(s, t, AddLoad(r, res, ThenSweep), [r]));
      assert DoPopWrap(s, s', t, node, res, r);
      assert DisposeNext(s, s', t);
      Commit(t, s');
    }

    method LinkRetired(t: Tid, r: Addr, ghost res: Value, ghost after: After)
      requires Ready(t, AddLoad(r, res, after))
      modifies this`retiredHeap, this`run
      ensures Ready(t, AddCas(r, res, after)) && Carried(t) == old(Carried(t)) && budget == old(budget)
      ensures forall r :: Continues(r, old(run)) ==> Continues(r, run)
      ensures Events(t) == old(Events(t))
    {
      NoUseAfterFree(run, t);
      retiredHeap := retiredHeap[r := retiredHeap[r].(next := retiredNodes)];
      Commit(t, run.s.(retiredHeap := retiredHeap, threads := Go(run.s, t, AddCas(r, res, after))));
    }

    method CasRetired(t: Tid, r: Addr, ghost res: Value, ghost after: After) returns (ok: bool)
      requires Ready(t, AddCas(r, res, after))
      modifies this`retiredHeap, this`retiredNodes, this`run
      ensures budget == old(budget) && r in old(retiredHeap) && r in retiredHeap
      ensures ok <==> old(retiredNodes) == old(retiredHeap)[r].next
      ensures ok ==> Ready(t, AfterAdd(after, res)) && Carried(t) == Rest(old(Carried(t)))
      ensures !ok ==> Ready(t, AddCas(r, res, after)) && retiredHeap[r].next == retiredNodes && Carried(t) == old(Carried(t))
      ensures forall r :: Continues(r, old(run)) ==> Continues(r, run)
      ensures Events(t) == old(Events(t))
    {
      NoUseAfterFree(run, t);
      ghost var s := run.s;
      ok := retiredNodes == retiredHeap[r].next;
      if ok {
        retiredNodes := r;
        Commit(t, s.(retiredHead := r, listed := [r] + s.listed, listOwn := s.listOwn[r := Listed],
                     threads := GoCarrying(s, t, if after.ThenSweep? then SweepTake(res) else SweepNext(after.next, res),
                                           Rest(s.threads[t].carried))));
      } else {
        retiredHeap := retiredHeap[r := retiredHeap[r].(next := retiredNodes)];
        Commit(t, s.(retiredHeap := retiredHeap));
      }
    }

    method ReturnPop(t: Tid, res: Value)
      requires Ready(t, SweepNext(NULL, res))
      modifies this`run
      ensures Ready(t, Idle)
      ensures forall r :: Continues(r, old(run)) ==> Continues(r, run)
      ensures Events(t) == old(Events(t)) + [RetPop(t, res)]
    {
      EventsAppend(run.s.log, RetPop(t, res), t);
      Commit(t, run.s.(threads := Go(run.s, t, Idle), log := run.s.log + [RetPop(t, res)]));
    }

    /** Other threads run while `t` holds the retired node `r`. */
    method InterfereAdding(ghost t: Tid, ghost pc: PC, ghost r: Addr, ghost res: Value, ghost after: After)
      requires Ready(t, pc) && (pc == AddLoad(r, res, after) || pc == AddCas(r, res, after))
      modifies this, slots
      ensures Ready(t, pc) && budget <= old(budget) && Carried(t) == old(Carried(t))
      ensures forall r :: Continues(r, old(run)) ==> Continues(r, run)
      ensures Events(t) == old(Events(t))
      ensures budget == old(budget) ==> retiredNodes == old(retiredNodes)
      ensures r in old(retiredHeap) && r in retiredHeap && retiredHeap[r] == old(retiredHeap)[r]
    {
      HoldsFirst(run, t);
      Interfere(t, pc);
      assert Carried(t)[0] == r;
    }

    /** `addToRetiredNodes`.  It retries only after another thread has changed the list head. */
    method AddToRetiredNodes(t: Tid, r: Addr, ghost res: Value, ghost after: After)
      requires Ready(t, AddLoad(r, res, after))
      modifies this, slots
      ensures Ready(t, AfterAdd(after, res)) && Carried(t) == Rest(old(Carried(t)))
      ensures forall r :: Continues(r, old(run)) ==> Continues(r, run)
      ensures Events(t) == old(Events(t))
    {
      hide *;
      Interfere(t, AddLoad(r, res, after));
      LinkRetired(t, r, res, after);
      InterfereAdding(t, AddCas(r, res, after), r, res, after);
      var ok := CasRetired(t, r, res, after);
      while !ok
        invariant Ready(t, if ok then AfterAdd(after, res) else AddCas(r, res, after))
        invariant Carried(t) == if ok then Rest(old(Carried(t))) else old(Carried(t))
        invariant r in retiredHeap && (!ok ==> retiredHeap[r].next == retiredNodes)
        invariant forall r :: Continues(r, old(run)) ==> Continues(r, run)
        invariant Events(t) == old(Events(t))
        decreases budget, !ok
      {
        InterfereAdding(t, AddCas(r, res, after), r, res, after);
        ok := CasRetired(t, r, res, after);
      }
    }

    method TakeRetired(t: Tid, ghost res: Value) returns (current: Addr)
      requires Ready(t, SweepTake(res))
      modifies this`retiredNodes, this`run
      ensures Ready(t, SweepNext(current, res)) && current == old(retiredNodes)
      ensures forall r :: Continues(r, old(run)) ==> Continues(r, run)
      ensures Events(t) == old(Events(t))
    {
      ghost var s := run.s;
      current := retiredNodes;
      retiredNodes := NULL;
      Commit(t, s.(retiredHead := NULL, listed := [], listOwn := Carry(s.listOwn, s.listed, t),
                   threads := GoCarrying(s, t, SweepNext(current, res), s.listed)));
    }

    method ReadRetired(t: Tid, current: Addr, ghost res: Value) returns (next: Addr, node: Addr)
      requires Ready(t, SweepNext(current, res)) && current != NULL
      modifies this`run
      ensures Ready(t, ScanAt(node, res, Some((current, next)), 0))
      ensures Carried(t) == old(Carried(t)) && |Rest(Carried(t))| < |Carried(t)|
      ensures forall r :: Continues(r, old(run)) ==> Continues(r, run)
      ensures Events(t) == old(Events(t))
    {
      NoUseAfterFree(run, t);
      CarriesSome(run, t, current, res);
      next, node := retiredHeap[current].next, retiredHeap[current].node;
      Commit(t, run.s.(threads := Go(run.s, t, SweepScan(current, next, node, res, 0))));
    }

    /** `delete current`, whose destructor deletes the node. */
    method DeleteRetired(t: Tid, current: Addr, ghost next: Addr, ghost node: Addr, ghost res: Value)
      requires Ready(t, ScanAt(node, res, Some((current, next)), MAX_HAZARD_POINTERS))
      modifies this`heap, this`retiredHeap, this`run
      ensures Ready(t, SweepNext(next, res)) && Carried(t) == Rest(old(Carried(t)))
      ensures forall r :: Continues(r, old(run)) ==> Continues(r, run)
      ensures Events(t) == old(Events(t))
    {
      NoUseAfterFree(run, t);
      ghost var s := run.s;
      var n := retiredHeap[current].node;
      heap := heap - {n};
      retiredHeap := retiredHeap - {current};
      Commit(t, s.(heap := heap, own := s.own - {n}, retiredHeap := retiredHeap, listOwn := s.listOwn - {current},
                   threads := GoCarrying(s, t, SweepNext(next, res), Rest(s.threads[t].carried))));
    }

    lemma NothingCarried(t: Tid, res: Value)
      requires Ready(t, SweepNext(NULL, res))
      ensures Carried(t) == []
    {
      RunGood(run);
      assert Carrying(run.s.retiredHeap, run.s.threads[t].pc, run.s.threads[t].carried);
    }

    /** `deleteUnusedNodes`: every detached node is deleted or put back, once. */
    method DeleteUnusedNodes(t: Tid, ghost res: Value)
      requires Ready(t, SweepTake(res))
      modifies this, slots
      ensures Ready(t, SweepNext(NULL, res)) && Carried(t) == []
      ensures forall r :: Continues(r, old(run)) ==> Continues(r, run)
      ensures Events(t) == old(Events(t))
    {
      hide *;
      var current := TakeRetired(t, res);
      while current != NULL
        invariant Ready(t, SweepNext(current, res))
        invariant forall r :: Continues(r, old(run)) ==> Continues(r, run)
        invariant Events(t) == old(Events(t))
        decreases |Carried(t)|
      {
        Interfere(t, SweepNext(current, res));
        var next, node := ReadRetired(t, current, res);
        Interfere(t, ScanAt(node, res, Some((current, next)), 0));
        var used := IsInUse(t, node, res, Some((current, next)));
        if !used {
          DeleteRetired(t, current, next, node, res);
        } else {
          WhereNext(node, res, current, next);
          AddToRetiredNodes(t, current, res, ThenNext(next));
        }
        current := next;
      }
      NothingCarried(t, res);
    }

    /** A thread outside a call has returned from all its calls. */
    lemma Rests(t: Tid)
      requires Ready(t, Idle)
      ensures PhaseOf(Events(t), t) == Quiet
    {
      RunGood(run);
      PhaseByEvents(run.s.log, t);
    }

    lemma PopMatches(t: Tid, past: seq<Event>, w: Value, v: Value)
      requires Ready(t, Idle) && PhaseOf(past, t) == Quiet
      requires Events(t) == past + [CallPop(t), DidPop(t, w), RetPop(t, v)]
      ensures v == w
    {
      PopReturnsPopped(run, t, past, w, v);
    }

    /** `topAndPop`, once.  A retry of either loop means that another thread has changed `head`. */
    method TopAndPop(t: Tid) returns (r: PopResult)
      requires Ready(t, Idle)
      modifies this, slots
      ensures Ready(t, Idle) && Continues(old(run), run)
      ensures Events(t) == old(Events(t)) + PopEvents(t, r)
      ensures r == StackEmpty ==> head == NULL
    {
      hide *;
      assert Continues(run, run) by { ContinuesSelf(run); }
      ghost var past := Events(t);
      Rests(t);
      var ok := BeginPop(t);
      if !ok {
        ok := ClaimSlot(t);
        if !ok {
          GiveUp(t);
          PopEventsAre(t);
          return NoHazardPointer;
        }
      }
      Interfere(t, PopLoad);
      var oldHead := LoadHead(t);
      var won := false;
      ghost var v: Value := *;
      while !won
        invariant Ready(t, if won then PopClear(oldHead) else PopPublish(oldHead)) && Continues(old(run), run)
        invariant !won ==> oldHead == head
        invariant Events(t) == past + [CallPop(t)] + if won then [DidPop(t, v)] else []
        decreases budget, !won
      {
        oldHead := Publish(t, oldHead);
        if oldHead == NULL {
          PopEventsAre(t);
          return StackEmpty;
        }
        Interfere(t, PopNext(oldHead));
        var next := ReadNext(t, oldHead);
        Interfere(t, PopCas(oldHead, next));
        var h;
        won, h, v := CasHeadPop(t, oldHead, next);
        oldHead := h;
      }
      var res := Dispose(t, oldHead);
      PopMatches(t, past, v, res);
      PopEventsAre(t);
      return Ok(res);
    }

    /** The inner loop: publish the hazard until `head` is confirmed. */
    method Publish(t: Tid, first: Addr) returns (oldHead: Addr)
      requires Ready(t, PopPublish(first)) && first == head
      modifies this, slots
      ensures oldHead == head && budget <= old(budget)
      ensures oldHead != NULL ==> Ready(t, PopNext(oldHead))
      ensures oldHead == NULL ==> Ready(t, Idle)
      ensures forall r :: Continues(r, old(run)) ==> Continues(r, run)
      ensures Events(t) == old(Events(t)) + if oldHead == NULL then [DidEmpty(t), ThrowEmpty(t)] else []
    {
      hide *;
      oldHead := first;
      var confirmed := false;
      while !confirmed
        invariant oldHead == head && budget <= old(budget)
        invariant !confirmed ==> Ready(t, PopPublish(oldHead))
        invariant confirmed && oldHead != NULL ==> Ready(t, PopNext(oldHead))
        invariant confirmed && oldHead == NULL ==> Ready(t, Idle)
        invariant forall r :: Continues(r, old(run)) ==> Continues(r, run)
        invariant Events(t) == old(Events(t)) + if confirmed && oldHead == NULL then [DidEmpty(t), ThrowEmpty(t)] else []
        decreases budget, !confirmed
      {
        Interfere(t, PopPublish(oldHead));
        SetHazard(t, oldHead, PopPublish(oldHead), PopConfirm(oldHead));
        Interfere(t, PopConfirm(oldHead));
        var temp := oldHead;
        oldHead := ConfirmHead(t, temp);
        confirmed := oldHead == temp;
      }
    }

    /** After the winning compare-and-swap: clear the hazard, delete or retire the node, sweep. */
    method Dispose(t: Tid, oldHead: Addr) returns (res: Value)
      requires Ready(t, PopClear(oldHead))
      modifies this, slots
      ensures Ready(t, Idle)
      ensures forall r :: Continues(r, old(run)) ==> Continues(r, run)
      ensures Events(t) == old(Events(t)) + [RetPop(t, res)]
    {
      hide *;
      Interfere(t, PopClear(oldHead));
      SetHazard(t, NULL, PopClear(oldHead), PopData(oldHead));
      Interfere(t, PopData(oldHead));
      res := ReadData(t, oldHead);
      Interfere(t, ScanAt(oldHead, res, None, 0));
      var used := IsInUse(t, oldHead, res, None);
      if used {
        var r := WrapNode(t, oldHead, res);
        AddToRetiredNodes(t, r, res, ThenSweep);
        WhereNext(oldHead, res, NULL, NULL);
      } else {
        DeleteNode(t, oldHead, res);
      }
      Interfere(t, SweepTake(res));
      DeleteUnusedNodes(t, res);
      ReturnPop(t, res);
    }
  }
}

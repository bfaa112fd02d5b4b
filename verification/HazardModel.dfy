/** The lock-free stack with hazard pointers as a transition system: any number of threads, one
    transition for each atomic access of `head`, a hazard slot or `RetiredNodes`, and one for each
    dereference that matters for memory safety.  Freed addresses may be handed out again. */
module HazardModel {
  import opened Options
  import opened Runs

  type Value(==, !new, 0)

  type Tid = nat

  /** Addresses; 0 is `nullptr`. */
  type Addr = nat

  const NULL: Addr := 0

  const MAX_HAZARD_POINTERS: nat := 50

  datatype Node = Node(data: Value, next: Addr)

  datatype RetiredNode = RetiredNode(node: Addr, next: Addr)

  datatype Slot = Slot(id: Option<Tid>, pointer: Addr)

  /** What follows `addToRetiredNodes`: the sweep starts, or goes on with `next`. */
  datatype After = ThenSweep | ThenNext(next: Addr)

  /** Where a thread stands, with the values of its live local variables. */
  datatype PC =
    | Idle
    | PushLoad(n: Addr)                            // node allocated, `next` still null
    | PushCas(n: Addr)
    | Claim(i: nat)                                // constructor of HazardPointerOwner, slot i
    | PopLoad
    | PopPublish(oldHead: Addr)
    | PopConfirm(oldHead: Addr)
    | PopNext(oldHead: Addr)                           // about to read oldHead->next
    | PopCas(oldHead: Addr, next: Addr)
    | PopClear(oldHead: Addr)                          // the node is ours
    | PopData(oldHead: Addr)
    | PopScan(oldHead: Addr, res: Value, i: nat)       // isInUse(oldHead)
    | PopWrap(oldHead: Addr, res: Value)               // new RetiredNode(oldHead)
    | AddLoad(r: Addr, res: Value, after: After)   // addToRetiredNodes
    | AddCas(r: Addr, res: Value, after: After)
    | SweepTake(res: Value)
    | SweepNext(current: Addr, res: Value)
    | SweepScan(current: Addr, next: Addr, node: Addr, res: Value, i: nat)  // isInUse(current->node)
    | Exiting                                      // destructor: pointer cleared, id not yet

  /** `carried` is history: the retired nodes that only this thread can reach. */
  datatype Thread = Thread(pc: PC, slot: Option<nat>, carried: seq<Addr>)

  /** Who is responsible for an allocated node. */
  datatype Owner = Pushing(t: Tid) | InStack | Popped(t: Tid) | Wrapped(r: Addr)

  /** Who is responsible for an allocated retired node. */
  datatype ListOwner = Listed | Carried(t: Tid)

  datatype Event =
    | CallPush(t: Tid, v: Value)
    | CallPop(t: Tid)
    | DidPush(t: Tid, v: Value)
    | DidPop(t: Tid, v: Value)
    | DidEmpty(t: Tid)
    | RetPush(t: Tid)
    | RetPop(t: Tid, v: Value)
    | ThrowEmpty(t: Tid)
    | ThrowNoSlot(t: Tid)

  /** The fields up to `threads` are the program's state.  The rest is history: it is written by
      the transitions and never read by them. */
  datatype State = State(
    heap: map<Addr, Node>,
    head: Addr,
    slots: seq<Slot>,
    retiredHeap: map<Addr, RetiredNode>,
    retiredHead: Addr,
    threads: seq<Thread>,
    stack: seq<Addr>,
    listed: seq<Addr>,
    own: map<Addr, Owner>,
    listOwn: map<Addr, ListOwner>,
    log: seq<Event>)

  ghost predicate Init(s: State) {
    && s.heap == map[] && s.retiredHeap == map[] && s.own == map[] && s.listOwn == map[]
    && s.head == NULL && s.retiredHead == NULL
    && s.slots == seq(MAX_HAZARD_POINTERS, i => Slot(None, NULL))
    && (forall t :: 0 <= t < |s.threads| ==> s.threads[t] == Thread(Idle, None, []))
    && s.stack == [] && s.listed == [] && s.log == []
  }

  function Go(s: State, t: Tid, pc: PC): seq<Thread>
    requires t < |s.threads|
  {
    s.threads[t := s.threads[t].(pc := pc)]
  }

  function GoCarrying(s: State, t: Tid, pc: PC, carried: seq<Addr>): seq<Thread>
    requires t < |s.threads|
  {
    s.threads[t := s.threads[t].(pc := pc, carried := carried)]
  }

  function Rest(chain: seq<Addr>): seq<Addr> {
    if chain == [] then [] else chain[1..]
  }

  ghost predicate At(s: State, t: Tid, pc: PC) {
    t < |s.threads| && s.threads[t].pc == pc
  }

  /* ----- push ----- */

  ghost predicate StartPush(s: State, s': State, t: Tid, v: Value, n: Addr) {
    && At(s, t, Idle)
    && n != NULL && n !in s.heap
    && s' == s.(heap := s.heap[n := Node(v, NULL)], own := s.own[n := Pushing(t)],
                threads := Go(s, t, PushLoad(n)), log := s.log + [CallPush(t, v)])
  }

  ghost predicate DoPushLoad(s: State, s': State, t: Tid, n: Addr) {
    && At(s, t, PushLoad(n))
    && n in s.heap
    && s' == s.(heap := s.heap[n := s.heap[n].(next := s.head)], threads := Go(s, t, PushCas(n)))
  }

  ghost predicate DoPushCas(s: State, s': State, t: Tid, n: Addr) {
    && At(s, t, PushCas(n))
    && n in s.heap
    && if s.head == s.heap[n].next then
         s' == s.(head := n, stack := [n] + s.stack, own := s.own[n := InStack],
                  threads := Go(s, t, Idle),
                  log := s.log + [DidPush(t, s.heap[n].data), RetPush(t)])
       else
         s' == s.(heap := s.heap[n := s.heap[n].(next := s.head)])
  }

  /* ----- hazard slots ----- */

  ghost predicate StartPop(s: State, s': State, t: Tid) {
    && At(s, t, Idle)
    && s' == s.(threads := Go(s, t, if s.threads[t].slot.None? then Claim(0) else PopLoad),
                log := s.log + [CallPop(t)])
  }

  ghost predicate DoClaim(s: State, s': State, t: Tid, i: nat) {
    && At(s, t, Claim(i))
    && if i >= MAX_HAZARD_POINTERS || i >= |s.slots| then
         s' == s.(threads := Go(s, t, Idle), log := s.log + [ThrowNoSlot(t)])
       else if s.slots[i].id == None then
         s' == s.(slots := s.slots[i := s.slots[i].(id := Some(t))],
                  threads := s.threads[t := Thread(PopLoad, Some(i), s.threads[t].carried)])
       else
         s' == s.(threads := Go(s, t, Claim(i + 1)))
  }

  ghost predicate HasSlot(s: State, t: Tid) {
    t < |s.threads| && s.threads[t].slot.Some? && s.threads[t].slot.value < |s.slots|
  }

  function SetPointer(s: State, t: Tid, p: Addr): seq<Slot>
    requires HasSlot(s, t)
  {
    var k := s.threads[t].slot.value;
    s.slots[k := s.slots[k].(pointer := p)]
  }

  ghost predicate ExitClear(s: State, s': State, t: Tid) {
    && At(s, t, Idle) && HasSlot(s, t)
    && s' == s.(slots := SetPointer(s, t, NULL), threads := Go(s, t, Exiting))
  }

  ghost predicate ExitRelease(s: State, s': State, t: Tid) {
    && At(s, t, Exiting) && HasSlot(s, t)
    && var k := s.threads[t].slot.value;
       s' == s.(slots := s.slots[k := s.slots[k].(id := None)],
                threads := s.threads[t := s.threads[t].(pc := Idle, slot := None)])
  }

  /* ----- topAndPop, up to the winning compare-and-swap ----- */

  ghost predicate DoPopLoad(s: State, s': State, t: Tid) {
    && At(s, t, PopLoad)
    && s' == s.(threads := Go(s, t, PopPublish(s.head)))
  }

  ghost predicate DoPopPublish(s: State, s': State, t: Tid, oldHead: Addr) {
    && At(s, t, PopPublish(oldHead)) && HasSlot(s, t)
    && s' == s.(slots := SetPointer(s, t, oldHead), threads := Go(s, t, PopConfirm(oldHead)))
  }

  ghost predicate DoPopConfirm(s: State, s': State, t: Tid, oldHead: Addr) {
    && At(s, t, PopConfirm(oldHead))
    && if s.head != oldHead then
         s' == s.(threads := Go(s, t, PopPublish(s.head)))
       else if oldHead == NULL then
         s' == s.(threads := Go(s, t, Idle), log := s.log + [DidEmpty(t), ThrowEmpty(t)])
       else
         s' == s.(threads := Go(s, t, PopNext(oldHead)))
  }

  ghost predicate DoPopNext(s: State, s': State, t: Tid, oldHead: Addr) {
    && At(s, t, PopNext(oldHead))
    && oldHead in s.heap
    && s' == s.(threads := Go(s, t, PopCas(oldHead, s.heap[oldHead].next)))
  }

  ghost predicate DoPopCas(s: State, s': State, t: Tid, oldHead: Addr, next: Addr) {
    && At(s, t, PopCas(oldHead, next))
    && if s.head == oldHead then
         && oldHead in s.heap
         && s' == s.(head := next, stack := Rest(s.stack), own := s.own[oldHead := Popped(t)],
                     threads := Go(s, t, PopClear(oldHead)), log := s.log + [DidPop(t, s.heap[oldHead].data)])
       else
         s' == s.(threads := Go(s, t, PopPublish(s.head)))
  }

  /* ----- topAndPop, disposing of the node ----- */

  ghost predicate DoPopClear(s: State, s': State, t: Tid, oldHead: Addr) {
    && At(s, t, PopClear(oldHead)) && HasSlot(s, t)
    && s' == s.(slots := SetPointer(s, t, NULL), threads := Go(s, t, PopData(oldHead)))
  }

  ghost predicate DoPopData(s: State, s': State, t: Tid, oldHead: Addr) {
    && At(s, t, PopData(oldHead))
    && oldHead in s.heap
    && s' == s.(threads := Go(s, t, PopScan(oldHead, s.heap[oldHead].data, 0)))
  }

  /** One round of `isInUse(oldHead)`; after the last slot the node is deleted. */
  ghost predicate DoPopScan(s: State, s': State, t: Tid, oldHead: Addr, res: Value, i: nat) {
    && At(s, t, PopScan(oldHead, res, i))
    && if i >= MAX_HAZARD_POINTERS || i >= |s.slots| then
         s' == s.(heap := s.heap - {oldHead}, own := s.own - {oldHead}, threads := Go(s, t, SweepTake(res)))
       else if s.slots[i].pointer == oldHead then
         s' == s.(threads := Go(s, t, PopWrap(oldHead, res)))
       else
         s' == s.(threads := Go(s, t, PopScan(oldHead, res, i + 1)))
  }

  ghost predicate DoPopWrap(s: State, s': State, t: Tid, oldHead: Addr, res: Value, r: Addr) {
    && At(s, t, PopWrap(oldHead, res))
    && r != NULL && r !in s.retiredHeap
    && s' == s.(retiredHeap := s.retiredHeap[r := RetiredNode(oldHead, NULL)],
                own := s.own[oldHead := Wrapped(r)], listOwn := s.listOwn[r := Carried(t)],
                threads := GoCarrying(s, t, AddLoad(r, res, ThenSweep), [r]))
  }

  ghost predicate DoAddLoad(s: State, s': State, t: Tid, r: Addr, res: Value, after: After) {
    && At(s, t, AddLoad(r, res, after))
    && r in s.retiredHeap
    && s' == s.(retiredHeap := s.retiredHeap[r := s.retiredHeap[r].(next := s.retiredHead)],
                threads := Go(s, t, AddCas(r, res, after)))
  }

  ghost predicate DoAddCas(s: State, s': State, t: Tid, r: Addr, res: Value, after: After) {
    && At(s, t, AddCas(r, res, after))
    && r in s.retiredHeap
    && if s.retiredHead == s.retiredHeap[r].next then
         s' == s.(retiredHead := r, listed := [r] + s.listed, listOwn := s.listOwn[r := Listed],
                  threads := GoCarrying(s, t, if after.ThenSweep? then SweepTake(res) else SweepNext(after.next, res),
                                        Rest(s.threads[t].carried)))
       else
         s' == s.(retiredHeap := s.retiredHeap[r := s.retiredHeap[r].(next := s.retiredHead)])
  }

  /* ----- deleteUnusedNodes ----- */

  function Carry(m: map<Addr, ListOwner>, rs: seq<Addr>, t: Tid): map<Addr, ListOwner> {
    map r | r in m :: if r in rs then Carried(t) else m[r]
  }

  ghost predicate DoSweepTake(s: State, s': State, t: Tid, res: Value) {
    && At(s, t, SweepTake(res))
    && s' == s.(retiredHead := NULL, listed := [], listOwn := Carry(s.listOwn, s.listed, t),
                threads := GoCarrying(s, t, SweepNext(s.retiredHead, res), s.listed))
  }

  ghost predicate DoSweepNext(s: State, s': State, t: Tid, current: Addr, res: Value) {
    && At(s, t, SweepNext(current, res))
    && if current == NULL then
         s' == s.(threads := Go(s, t, Idle), log := s.log + [RetPop(t, res)])
       else
         && current in s.retiredHeap
         && s' == s.(threads := Go(s, t, SweepScan(current, s.retiredHeap[current].next,
                                                s.retiredHeap[current].node, res, 0)))
  }

  /** One round of `isInUse(current->node)`; after the last slot `current` and its node are deleted. */
  ghost predicate DoSweepScan(s: State, s': State, t: Tid,
                              current: Addr, next: Addr, node: Addr, res: Value, i: nat) {
    && At(s, t, SweepScan(current, next, node, res, i))
    && if i >= MAX_HAZARD_POINTERS || i >= |s.slots| then
         && current in s.retiredHeap
         && s' == s.(heap := s.heap - {s.retiredHeap[current].node}, own := s.own - {s.retiredHeap[current].node},
                     retiredHeap := s.retiredHeap - {current}, listOwn := s.listOwn - {current},
                     threads := GoCarrying(s, t, SweepNext(next, res), Rest(s.threads[t].carried)))
       else if s.slots[i].pointer == node then
         s' == s.(threads := Go(s, t, AddLoad(current, res, ThenNext(next))))
       else
         s' == s.(threads := Go(s, t, SweepScan(current, next, node, res, i + 1)))
  }

  /* ----- all transitions of a thread ----- */

  ghost predicate PushNext(s: State, s': State, t: Tid) {
    && t < |s.threads|
    && match s.threads[t].pc
       case Idle => exists v, n :: StartPush(s, s', t, v, n)
       case PushLoad(n) => DoPushLoad(s, s', t, n)
       case PushCas(n) => DoPushCas(s, s', t, n)
       case _ => false
  }

  ghost predicate SlotNext(s: State, s': State, t: Tid) {
    && t < |s.threads|
    && match s.threads[t].pc
       case Idle => StartPop(s, s', t) || ExitClear(s, s', t)
       case Claim(i) => DoClaim(s, s', t, i)
       case Exiting => ExitRelease(s, s', t)
       case _ => false
  }

  ghost predicate LookNext(s: State, s': State, t: Tid) {
    && t < |s.threads|
    && match s.threads[t].pc
       case PopLoad => DoPopLoad(s, s', t)
       case PopPublish(oldHead) => DoPopPublish(s, s', t, oldHead)
       case PopConfirm(oldHead) => DoPopConfirm(s, s', t, oldHead)
       case PopNext(oldHead) => DoPopNext(s, s', t, oldHead)
       case PopCas(oldHead, next) => DoPopCas(s, s', t, oldHead, next)
       case _ => false
  }

  ghost predicate DisposeNext(s: State, s': State, t: Tid) {
    && t < |s.threads|
    && match s.threads[t].pc
       case PopClear(oldHead) => DoPopClear(s, s', t, oldHead)
       case PopData(oldHead) => DoPopData(s, s', t, oldHead)
       case PopScan(oldHead, res, i) => DoPopScan(s, s', t, oldHead, res, i)
       case PopWrap(oldHead, res) => exists r :: DoPopWrap(s, s', t, oldHead, res, r)
       case _ => false
  }

  ghost predicate RetireNext(s: State, s': State, t: Tid) {
    && t < |s.threads|
    && match s.threads[t].pc
       case AddLoad(r, res, after) => DoAddLoad(s, s', t, r, res, after)
       case AddCas(r, res, after) => DoAddCas(s, s', t, r, res, after)
       case SweepTake(res) => DoSweepTake(s, s', t, res)
       case SweepNext(current, res) => DoSweepNext(s, s', t, current, res)
       case SweepScan(current, next, node, res, i) => DoSweepScan(s, s', t, current, next, node, res, i)
       case _ => false
  }

  /** Thread `t` performs its next atomic access. */
  ghost predicate Next(s: State, s': State, t: Tid) {
    || PushNext(s, s', t)
    || SlotNext(s, s', t)
    || LookNext(s, s', t)
    || DisposeNext(s, s', t)
    || RetireNext(s, s', t)
  }

  ghost predicate Steps(s: State, s': State) {
    exists t :: Next(s, s', t)
  }

  /** A finite run from an initial state, any thread moving at each step; `run.s` is its last state. */
  ghost predicate IsRun(run: Run<State>)
    decreases run, 0
  {
    match run
    case Start(s) => Init(s)
    case Then(before, s) => Extends(before, s)
  }

  /** One more transition at the end of a run. */
  ghost predicate Extends(before: Run<State>, s: State)
    decreases before, 1
  {
    IsRun(before) && Steps(before.s, s)
  }
}

/** The inductive invariant of the hazard-pointer stack and its preservation by every transition. */
module HazardInvariant {
  import opened HazardModel
  import opened Options

  /* ----- what a program counter says about its thread ----- */

  /** The node a pushing thread is still building. */
  function Building(pc: PC): Option<Addr> {
    match pc
    case PushLoad(n) => Some(n)
    case PushCas(n) => Some(n)
    case _ => None
  }

  /** The node a popping thread has removed and not yet handed to a RetiredNode. */
  function Removed(pc: PC): Option<Addr> {
    match pc
    case PopClear(oldHead) => Some(oldHead)
    case PopData(oldHead) => Some(oldHead)
    case PopScan(oldHead, _, _) => Some(oldHead)
    case PopWrap(oldHead, _) => Some(oldHead)
    case _ => None
  }

  /** The node whose hazard this thread has published and confirmed. */
  function Protects(pc: PC): Option<Addr> {
    match pc
    case PopNext(oldHead) => Some(oldHead)
    case PopCas(oldHead, _) => Some(oldHead)
    case _ => None
  }

  function NeedsSlot(pc: PC): bool {
    match pc
    case PushLoad(_) => false
    case PushCas(_) => false
    case Idle => false
    case Claim(_) => false
    case _ => true
  }

  /** What the thread's own hazard slot must contain. */
  predicate PointerOk(pc: PC, p: Addr) {
    match pc
    case PopPublish(_) => true
    case PopConfirm(oldHead) => p == oldHead
    case PopNext(oldHead) => p == oldHead
    case PopCas(oldHead, _) => p == oldHead
    case PopClear(oldHead) => p == oldHead
    case _ => p == NULL
  }

  /* ----- the invariant ----- */

  ghost predicate SlotsOk(s: State) {
    && |s.slots| == MAX_HAZARD_POINTERS
    && (forall t :: 0 <= t < |s.threads| && s.threads[t].slot.Some? ==>
          && s.threads[t].slot.value < |s.slots|
          && s.slots[s.threads[t].slot.value].id == Some(t)
          && PointerOk(s.threads[t].pc, s.slots[s.threads[t].slot.value].pointer)
          && !s.threads[t].pc.Claim?)
    && (forall t :: 0 <= t < |s.threads| && s.threads[t].slot.None? ==> !NeedsSlot(s.threads[t].pc))
    && (forall k :: 0 <= k < |s.slots| && s.slots[k].id.Some? ==>
          && s.slots[k].id.value < |s.threads|
          && s.threads[s.slots[k].id.value].slot == Some(k))
    && (forall k :: 0 <= k < |s.slots| && s.slots[k].id.None? ==> s.slots[k].pointer == NULL)
  }

  function Nth(chain: seq<Addr>, i: nat): Addr {
    if i < |chain| then chain[i] else NULL
  }

  /** `chain` is the null-terminated list of stack nodes starting at `h`. */
  ghost predicate IsStackChain(heap: map<Addr, Node>, h: Addr, chain: seq<Addr>) {
    && h == Nth(chain, 0)
    && (forall i :: 0 <= i < |chain| ==> chain[i] != NULL && chain[i] in heap)
    && (forall i :: 0 <= i < |chain| ==> heap[chain[i]].next == Nth(chain, i + 1))
  }

  ghost predicate IsRetiredChain(heap: map<Addr, RetiredNode>, h: Addr, chain: seq<Addr>) {
    && h == Nth(chain, 0)
    && (forall i :: 0 <= i < |chain| ==> chain[i] != NULL && chain[i] in heap)
    && (forall i :: 0 <= i < |chain| ==> heap[chain[i]].next == Nth(chain, i + 1))
  }

  ghost predicate Distinct(chain: seq<Addr>) {
    forall i, j :: 0 <= i < j < |chain| ==> chain[i] != chain[j]
  }

  /** The nodes marked as stacked are the ones reached from `head`, each once. */
  ghost predicate StackOk(s: State) {
    && s.own.Keys == s.heap.Keys
    && NULL !in s.heap
    && Distinct(s.stack)
    && IsStackChain(s.heap, s.head, s.stack)
    && (forall i :: 0 <= i < |s.stack| ==> s.stack[i] in s.own && s.own[s.stack[i]] == InStack)
    && (forall a :: a in s.own && s.own[a] == InStack ==> a in s.stack)
  }

  /** The node this program counter holds, with the owner mark that goes with it. */
  function Holding(pc: PC, t: Tid): Option<(Addr, Owner)> {
    if Building(pc).Some? then Some((Building(pc).value, Pushing(t)))
    else if Removed(pc).Some? then Some((Removed(pc).value, Popped(t)))
    else None
  }

  /** Owner marks of pushing and popping threads agree with their program counters. */
  ghost predicate HoldersOk(s: State) {
    && (forall t :: 0 <= t < |s.threads| && Holding(s.threads[t].pc, t).Some? ==>
          var h := Holding(s.threads[t].pc, t).value;
          h.0 in s.own && s.own[h.0] == h.1)
    && (forall a :: a in s.own && Held(s.own[a]) ==>
          && s.own[a].t < |s.threads|
          && Holding(s.threads[s.own[a].t].pc, s.own[a].t) == Some((a, s.own[a])))
  }

  /** Retired nodes and the nodes they wrap correspond one to one. */
  ghost predicate WrapsOk(s: State) {
    && (forall r :: r in s.retiredHeap ==>
          && s.retiredHeap[r].node in s.own && s.own[s.retiredHeap[r].node] == Wrapped(r))
    && (forall a :: a in s.own && s.own[a].Wrapped? ==>
          && s.own[a].r in s.retiredHeap && s.retiredHeap[s.own[a].r].node == a)
  }

  /** The retired nodes marked as listed are the ones reached from `RetiredNodes`, each once. */
  ghost predicate ListedOk(s: State) {
    && s.listOwn.Keys == s.retiredHeap.Keys
    && NULL !in s.retiredHeap
    && Distinct(s.listed)
    && IsRetiredChain(s.retiredHeap, s.retiredHead, s.listed)
    && (forall i :: 0 <= i < |s.listed| ==> s.listed[i] in s.listOwn && s.listOwn[s.listed[i]] == Listed)
    && (forall r :: r in s.listOwn && s.listOwn[r] == Listed ==> r in s.listed)
  }

  /** Every other retired node is carried by exactly one thread. */
  ghost predicate CarriersOk(s: State) {
    && (forall t :: 0 <= t < |s.threads| ==> Distinct(s.threads[t].carried))
    && (forall t, i :: 0 <= t < |s.threads| && 0 <= i < |s.threads[t].carried| ==>
          && s.threads[t].carried[i] in s.listOwn
          && s.listOwn[s.threads[t].carried[i]] == Carried(t))
    && (forall r :: r in s.listOwn && s.listOwn[r].Carried? ==>
          && s.listOwn[r].t < |s.threads| && r in s.threads[s.listOwn[r].t].carried)
  }

  /** The carried nodes are the ones the program counter holds and the list it still has to visit. */
  ghost predicate Carrying(heap: map<Addr, RetiredNode>, pc: PC, carried: seq<Addr>) {
    match pc
    case AddLoad(r, _, ThenSweep) => carried == [r]
    case AddCas(r, _, ThenSweep) => carried == [r]
    case AddLoad(r, _, ThenNext(next)) => HeadAndTail(heap, r, next, carried)
    case AddCas(r, _, ThenNext(next)) => HeadAndTail(heap, r, next, carried)
    case SweepNext(current, _) => IsRetiredChain(heap, current, carried)
    case SweepScan(current, next, node, _, _) =>
      HeadAndTail(heap, current, next, carried) && current in heap && heap[current].node == node
    case _ => carried == []
  }

  ghost predicate HeadAndTail(heap: map<Addr, RetiredNode>, r: Addr, next: Addr, carried: seq<Addr>) {
    carried != [] && carried[0] == r && IsRetiredChain(heap, next, carried[1..])
  }

  ghost predicate PendingOk(s: State) {
    forall t :: 0 <= t < |s.threads| ==> Carrying(s.retiredHeap, s.threads[t].pc, s.threads[t].carried)
  }

  /** A confirmed node is allocated, was published, and its `next` is what the thread has read. */
  ghost predicate ConfirmedAt(s: State, t: Tid)
    requires t < |s.threads|
  {
    Protects(s.threads[t].pc).Some? ==>
      var a := Protects(s.threads[t].pc).value;
      && a in s.heap && a in s.own && !s.own[a].Pushing?
      && (s.threads[t].pc.PopCas? ==> s.heap[a].next == s.threads[t].pc.next)
  }

  ghost predicate ConfirmedOk(s: State) {
    forall t :: 0 <= t < |s.threads| ==> ConfirmedAt(s, t)
  }

  /** The node a thread is looking for in the slots and how many slots it has passed. */
  function Scanning(pc: PC): Option<(Addr, nat)> {
    match pc
    case PopScan(oldHead, _, i) => Some((oldHead, i))
    case SweepScan(_, _, node, _, i) => Some((node, i))
    case _ => None
  }

  ghost predicate NotPassed(s: State, t: Tid, u: Tid)
    requires t < |s.threads| && u < |s.threads|
  {
    (&& Protects(s.threads[t].pc).Some? && s.threads[t].slot.Some? && Scanning(s.threads[u].pc).Some?
     && Protects(s.threads[t].pc).value == Scanning(s.threads[u].pc).value.0)
    ==> Scanning(s.threads[u].pc).value.1 <= s.threads[t].slot.value
  }

  /** No scan has gone past a slot that protects the node it looks for. */
  ghost predicate ScansOk(s: State) {
    forall t, u :: 0 <= t < |s.threads| && 0 <= u < |s.threads| ==> NotPassed(s, t, u)
  }

  ghost predicate Inv(s: State) {
    SlotsOk(s) && NodesOk(s) && RetiredOk(s) && ConfirmedOk(s) && ScansOk(s)
  }

  lemma InitInv(s: State)
    requires Init(s)
    ensures Inv(s)
  {
  }

  /* ----- frames: what a transition may do without touching a conjunct ----- */

  ghost predicate OnlyThread(s: State, s': State, t: Tid) {
    && t < |s.threads| == |s'.threads|
    && s'.threads == s.threads[t := s'.threads[t]]
  }

  lemma SlotsFrame(s: State, s': State, t: Tid)
    requires SlotsOk(s) && OnlyThread(s, s', t)
    requires s'.threads[t].slot == s.threads[t].slot
    requires s'.slots == s.slots || (HasSlot(s, t) && exists p :: s'.slots == SetPointer(s, t, p))
    requires HasSlot(s, t) ==>
               && PointerOk(s'.threads[t].pc, s'.slots[s.threads[t].slot.value].pointer)
               && !s'.threads[t].pc.Claim?
    requires s.threads[t].slot.None? ==> !NeedsSlot(s'.threads[t].pc)
    ensures SlotsOk(s')
  {
  }

  lemma StackFrame(s: State, s': State)
    requires StackOk(s)
    requires s'.own.Keys == s'.heap.Keys && NULL !in s'.heap
    requires s'.stack == s.stack && s'.head == s.head
    requires forall a :: a in s.own && s.own[a] == InStack ==> a in s'.own && s'.own[a] == InStack
    requires forall a :: a in s'.own && s'.own[a] == InStack ==> a in s.own && s.own[a] == InStack
    requires forall a :: a in s.own && s.own[a] == InStack ==> s'.heap[a].next == s.heap[a].next
    ensures StackOk(s')
  {
    forall i | 0 <= i < |s.stack|
      ensures s.stack[i] in s'.own && s'.own[s.stack[i]] == InStack
      ensures s'.heap[s.stack[i]].next == s.heap[s.stack[i]].next
    {
      assert s.own[s.stack[i]] == InStack;
    }
  }

  ghost predicate Held(o: Owner) {
    o.Pushing? || o.Popped?
  }

  lemma HoldersFrame(s: State, s': State, t: Tid)
    requires HoldersOk(s) && OnlyThread(s, s', t)
    requires forall a :: a in s.own && Held(s.own[a]) && s.own[a].t != t ==> a in s'.own && s'.own[a] == s.own[a]
    requires forall a :: a in s'.own && Held(s'.own[a]) && s'.own[a].t != t ==> a in s.own && s'.own[a] == s.own[a]
    requires var h := Holding(s'.threads[t].pc, t);
             && (h.Some? ==> h.value.0 in s'.own && s'.own[h.value.0] == h.value.1)
             && (forall a :: a in s'.own && Held(s'.own[a]) && s'.own[a].t == t ==> h == Some((a, s'.own[a])))
    ensures HoldersOk(s')
  {
  }

  lemma WrapsFrame(s: State, s': State)
    requires WrapsOk(s)
    requires s'.retiredHeap.Keys == s.retiredHeap.Keys
    requires forall r :: r in s.retiredHeap ==> s'.retiredHeap[r].node == s.retiredHeap[r].node
    requires forall a :: a in s.own && s.own[a].Wrapped? ==> a in s'.own && s'.own[a] == s.own[a]
    requires forall a :: a in s'.own && s'.own[a].Wrapped? ==> a in s.own && s'.own[a] == s.own[a]
    ensures WrapsOk(s')
  {
  }

  lemma ListedFrame(s: State, s': State)
    requires ListedOk(s)
    requires s'.listOwn.Keys == s'.retiredHeap.Keys && NULL !in s'.retiredHeap
    requires s'.listed == s.listed && s'.retiredHead == s.retiredHead
    requires forall r :: r in s.listOwn && s.listOwn[r] == Listed ==>
               r in s'.listOwn && s'.listOwn[r] == Listed && s'.retiredHeap[r].next == s.retiredHeap[r].next
    requires forall r :: r in s'.listOwn && s'.listOwn[r] == Listed ==> r in s.listOwn && s.listOwn[r] == Listed
    ensures ListedOk(s')
  {
    forall i | 0 <= i < |s.listed|
      ensures s.listed[i] in s'.listOwn && s'.listOwn[s.listed[i]] == Listed
      ensures s'.retiredHeap[s.listed[i]].next == s.retiredHeap[s.listed[i]].next
    {
      assert s.listOwn[s.listed[i]] == Listed;
    }
  }

  lemma CarriersFrame(s: State, s': State, t: Tid)
    requires CarriersOk(s) && OnlyThread(s, s', t)
    requires forall r :: r in s.listOwn && s.listOwn[r].Carried? && s.listOwn[r].t != t ==>
               r in s'.listOwn && s'.listOwn[r] == s.listOwn[r]
    requires forall r :: r in s'.listOwn && s'.listOwn[r].Carried? && s'.listOwn[r].t != t ==>
               r in s.listOwn && s'.listOwn[r] == s.listOwn[r]
    requires var c := s'.threads[t].carried;
             && Distinct(c)
             && (forall i :: 0 <= i < |c| ==> c[i] in s'.listOwn && s'.listOwn[c[i]] == Carried(t))
             && (forall r :: r in s'.listOwn && s'.listOwn[r] == Carried(t) ==> r in c)
    ensures CarriersOk(s')
  {
  }

  /** Thread `t` gives up the first retired node it carries. */
  lemma CarriersDrop(s: State, s': State, t: Tid)
    requires CarriersOk(s) && OnlyThread(s, s', t) && s.threads[t].carried != []
    requires s'.threads[t].carried == s.threads[t].carried[1..]
    requires var r := s.threads[t].carried[0];
             && (forall q :: q in s.listOwn && q != r ==> q in s'.listOwn && s'.listOwn[q] == s.listOwn[q])
             && (forall q :: q in s'.listOwn && q != r ==> q in s.listOwn)
             && (r in s'.listOwn ==> !s'.listOwn[r].Carried?)
    ensures CarriersOk(s')
  {
    var c, c' := s.threads[t].carried, s'.threads[t].carried;
    assert c == [c[0]] + c';
    assert forall i :: 0 <= i < |c'| ==> c'[i] == c[i + 1];
    CarriersFrame(s, s', t);
  }

  lemma CarryingFrame(heap: map<Addr, RetiredNode>, heap': map<Addr, RetiredNode>, pc: PC, carried: seq<Addr>)
    requires Carrying(heap, pc, carried)
    requires forall i :: 0 <= i < |carried| && carried[i] in heap ==>
               carried[i] in heap' && heap'[carried[i]] == heap[carried[i]]
    ensures Carrying(heap', pc, carried)
  {
    if carried != [] {
      forall i | 0 <= i < |carried[1..]| ensures carried[1..][i] == carried[i + 1] {}
    }
  }

  lemma PendingFrame(s: State, s': State, t: Tid)
    requires CarriersOk(s) && PendingOk(s) && OnlyThread(s, s', t)
    requires forall r :: r in s.listOwn && s.listOwn[r].Carried? && s.listOwn[r].t != t && r in s.retiredHeap ==>
               r in s'.retiredHeap && s'.retiredHeap[r] == s.retiredHeap[r]
    requires Carrying(s'.retiredHeap, s'.threads[t].pc, s'.threads[t].carried)
    ensures PendingOk(s')
  {
    forall u | 0 <= u < |s.threads|
      ensures Carrying(s'.retiredHeap, s'.threads[u].pc, s'.threads[u].carried)
    {
      if u != t {
        CarryingFrame(s.retiredHeap, s'.retiredHeap, s.threads[u].pc, s.threads[u].carried);
      }
    }
  }

  ghost predicate Kept(s: State, s': State, a: Addr) {
    (a in s.heap && a in s.own && !s.own[a].Pushing?) ==>
      (a in s'.heap && a in s'.own && !s'.own[a].Pushing? && s'.heap[a].next == s.heap[a].next)
  }

  lemma ConfirmedFrame(s: State, s': State, t: Tid)
    requires ConfirmedOk(s) && OnlyThread(s, s', t) && ConfirmedAt(s', t)
    requires forall u :: 0 <= u < |s.threads| && u != t && Protects(s.threads[u].pc).Some? ==>
               Kept(s, s', Protects(s.threads[u].pc).value)
    ensures ConfirmedOk(s')
  {
    forall u | 0 <= u < |s.threads| ensures ConfirmedAt(s', u) {
      assert ConfirmedAt(s, u);
    }
  }

  lemma ScansFrame(s: State, s': State, t: Tid)
    requires ScansOk(s) && OnlyThread(s, s', t)
    requires s'.threads[t].slot == s.threads[t].slot || Protects(s'.threads[t].pc) == None
    requires Protects(s'.threads[t].pc) in {None, Protects(s.threads[t].pc)}
    requires Scanning(s'.threads[t].pc) in {None, Scanning(s.threads[t].pc)} || Scanning(s'.threads[t].pc).value.1 == 0
    ensures ScansOk(s')
  {
    forall a, b | 0 <= a < |s.threads| && 0 <= b < |s.threads| ensures NotPassed(s', a, b) {
      assert NotPassed(s, a, b);
    }
  }

  lemma StackStartPush(s: State, s': State, t: Tid, v: Value, n: Addr)
    requires StackOk(s) && HoldersOk(s) && StartPush(s, s', t, v, n)
    ensures StackOk(s')
  {
    hide Nth, IsStackChain, Distinct;
    StackFrame(s, s');
  }

  lemma HoldersStartPush(s: State, s': State, t: Tid, v: Value, n: Addr)
    requires StackOk(s) && HoldersOk(s) && StartPush(s, s', t, v, n)
    ensures HoldersOk(s')
  {
    hide Nth, IsStackChain, Distinct;
    HoldersFrame(s, s', t);
  }

  lemma WrapsStartPush(s: State, s': State, t: Tid, v: Value, n: Addr)
    requires StackOk(s) && HoldersOk(s) && WrapsOk(s) && StartPush(s, s', t, v, n)
    ensures WrapsOk(s')
  {
    hide Nth, IsStackChain, Distinct;
    WrapsFrame(s, s');
  }

  lemma StackPushLoad(s: State, s': State, t: Tid, n: Addr)
    requires StackOk(s) && HoldersOk(s) && DoPushLoad(s, s', t, n)
    ensures StackOk(s')
  {
    hide Nth, IsStackChain, Distinct;
    StackFrame(s, s');
  }

  lemma HoldersPushLoad(s: State, s': State, t: Tid, n: Addr)
    requires StackOk(s) && HoldersOk(s) && DoPushLoad(s, s', t, n)
    ensures HoldersOk(s')
  {
    hide Nth, IsStackChain, Distinct;
    HoldersFrame(s, s', t);
  }

  lemma WrapsPushLoad(s: State, s': State, t: Tid, n: Addr)
    requires StackOk(s) && HoldersOk(s) && WrapsOk(s) && DoPushLoad(s, s', t, n)
    ensures WrapsOk(s')
  {
    hide Nth, IsStackChain, Distinct;
    WrapsFrame(s, s');
  }

  lemma NthPush(n: Addr, chain: seq<Addr>, i: nat)
    ensures Nth([n] + chain, 0) == n && Nth([n] + chain, i + 1) == Nth(chain, i)
  {
  }

  lemma StackChainPush(heap: map<Addr, Node>, n: Addr, h: Addr, chain: seq<Addr>)
    requires IsStackChain(heap, h, chain) && Distinct(chain)
    requires n in heap && n != NULL && n !in chain && heap[n].next == h
    ensures IsStackChain(heap, n, [n] + chain) && Distinct([n] + chain)
  {
    hide Nth;
    var c := [n] + chain;
    NthPush(n, chain, 0);
    forall i | 0 <= i < |c| ensures c[i] in heap && c[i] != NULL && heap[c[i]].next == Nth(c, i + 1) {
      NthPush(n, chain, i);
      if i > 0 {
        assert c[i] == chain[i - 1];
      }
    }
  }

  lemma StackPushWins(s: State, s': State, t: Tid, n: Addr)
    requires StackOk(s) && n in s.own && s.own[n] == Pushing(t)
    requires DoPushCas(s, s', t, n) && s.head == s.heap[n].next
    ensures StackOk(s')
  {
    hide Nth;
    StackChainPush(s.heap, n, s.head, s.stack);
    hide IsStackChain, Distinct;
  }

  lemma StackPushCas(s: State, s': State, t: Tid, n: Addr)
    requires StackOk(s) && HoldersOk(s) && DoPushCas(s, s', t, n)
    ensures StackOk(s')
  {
    hide Nth, IsStackChain, Distinct;
    assert Holding(s.threads[t].pc, t).value == (n, Pushing(t));
    if s.head == s.heap[n].next {
      StackPushWins(s, s', t, n);
    } else {
      StackFrame(s, s');
    }
  }

  lemma HoldersPushCas(s: State, s': State, t: Tid, n: Addr)
    requires StackOk(s) && HoldersOk(s) && DoPushCas(s, s', t, n)
    ensures HoldersOk(s')
  {
    hide Nth, IsStackChain, Distinct;
    HoldersFrame(s, s', t);
  }

  lemma WrapsPushCas(s: State, s': State, t: Tid, n: Addr)
    requires StackOk(s) && HoldersOk(s) && WrapsOk(s) && DoPushCas(s, s', t, n)
    ensures WrapsOk(s')
  {
    hide Nth, IsStackChain, Distinct;
    WrapsFrame(s, s');
  }

  lemma ChainTail(heap: map<Addr, Node>, h: Addr, chain: seq<Addr>)
    requires IsStackChain(heap, h, chain) && Distinct(chain) && chain != []
    ensures h in heap && IsStackChain(heap, heap[h].next, chain[1..]) && Distinct(chain[1..])
    ensures h !in chain[1..]
  {
    forall i | 0 <= i < |chain[1..]| ensures heap[chain[1..][i]].next == Nth(chain[1..], i + 1) {
      assert chain[1..][i] == chain[i + 1];
    }
  }

  lemma RetiredChainTail(heap: map<Addr, RetiredNode>, h: Addr, chain: seq<Addr>)
    requires IsRetiredChain(heap, h, chain) && chain != []
    ensures h == chain[0] && h in heap && IsRetiredChain(heap, heap[h].next, chain[1..])
  {
    forall i | 0 <= i < |chain[1..]| ensures heap[chain[1..][i]].next == Nth(chain[1..], i + 1) {
      assert chain[1..][i] == chain[i + 1];
    }
  }

  lemma HeadIsStacked(s: State)
    requires StackOk(s) && s.head != NULL
    ensures s.head in s.own && s.own[s.head] == InStack
  {
    assert s.stack[0] == s.head;
  }

  /** The top node leaves the stack. */
  lemma StackLosesTop(s: State, s': State, a: Addr, o: Owner)
    requires StackOk(s) && s.stack != [] && s.head == a == s.stack[0] && a in s.heap && !o.InStack?
    requires s'.heap == s.heap && s'.own == s.own[a := o]
    requires s'.stack == s.stack[1..] && s'.head == s.heap[a].next
    ensures StackOk(s')
  {
    hide Nth, IsStackChain, Distinct;
    ChainTail(s.heap, s.head, s.stack);
    forall i | 0 <= i < |s'.stack| ensures s'.stack[i] in s'.own && s'.own[s'.stack[i]] == InStack {
      assert s'.stack[i] == s.stack[i + 1];
      assert s'.stack[i] in s.stack[1..];
    }
    forall b | b in s'.own && s'.own[b] == InStack ensures b in s'.stack {
      assert s.stack == [a] + s'.stack;
    }
  }

  lemma StackPopWins(s: State, s': State, t: Tid, a: Addr, next: Addr)
    requires StackOk(s) && t < |s.threads| && ConfirmedAt(s, t) && DoPopCas(s, s', t, a, next) && s.head == a
    ensures StackOk(s')
  {
    assert Protects(s.threads[t].pc) == Some(a) && s.heap[a].next == next;
    assert s.stack != [] && s.stack[0] == a && a in s.heap;
    hide Protects, ConfirmedAt, StackOk;
    StackLosesTop(s, s', a, Popped(t));
  }

  lemma StackPopCas(s: State, s': State, t: Tid, a: Addr, next: Addr)
    requires StackOk(s) && HoldersOk(s) && t < |s.threads| && ConfirmedAt(s, t) && DoPopCas(s, s', t, a, next)
    ensures StackOk(s')
  {
    if s.head == a {
      StackPopWins(s, s', t, a, next);
    } else {
      hide HoldersOk;
      StackFrame(s, s');
    }
  }

  lemma HoldersPopCas(s: State, s': State, t: Tid, a: Addr, next: Addr)
    requires HoldersOk(s) && (s.head == a ==> a in s.own && s.own[a] == InStack) && DoPopCas(s, s', t, a, next)
    ensures HoldersOk(s')
  {
    HoldersFrame(s, s', t);
  }

  lemma WrapsPopCas(s: State, s': State, t: Tid, a: Addr, next: Addr)
    requires StackOk(s) && HoldersOk(s) && WrapsOk(s) && t < |s.threads| && ConfirmedAt(s, t) && DoPopCas(s, s', t, a, next)
    ensures WrapsOk(s')
  {
    if s.head == a {
      HeadIsStacked(s);
    }
    hide StackOk, HoldersOk, ConfirmedAt;
    WrapsFrame(s, s');
  }

  lemma StackPopScan(s: State, s': State, t: Tid, a: Addr, res: Value, i: nat)
    requires StackOk(s) && HoldersOk(s) && DoPopScan(s, s', t, a, res, i)
    ensures StackOk(s')
  {
    hide Nth, IsStackChain, Distinct;
    assert Holding(s.threads[t].pc, t).value == (a, Popped(t));
    assert a in s.own && s.own[a] == Popped(t);
    hide HoldersOk;
    StackFrame(s, s');
  }

  lemma HoldersPopScan(s: State, s': State, t: Tid, a: Addr, res: Value, i: nat)
    requires HoldersOk(s) && DoPopScan(s, s', t, a, res, i)
    ensures HoldersOk(s')
  {
    assert Holding(s.threads[t].pc, t).value == (a, Popped(t));
    HoldersFrame(s, s', t);
  }

  lemma WrapsDelete(s: State, s': State, a: Addr)
    requires WrapsOk(s) && a in s.own && !s.own[a].Wrapped?
    requires s'.retiredHeap == s.retiredHeap && s'.own == s.own - {a}
    ensures WrapsOk(s')
  {
    forall r | r in s'.retiredHeap
      ensures s'.retiredHeap[r].node in s'.own && s'.own[s'.retiredHeap[r].node] == Wrapped(r)
    {
      assert s.own[s.retiredHeap[r].node] == Wrapped(r);
    }
  }

  lemma WrapsPopScan(s: State, s': State, t: Tid, a: Addr, res: Value, i: nat)
    requires StackOk(s) && HoldersOk(s) && WrapsOk(s) && DoPopScan(s, s', t, a, res, i)
    ensures WrapsOk(s')
  {
    assert Holding(s.threads[t].pc, t).value == (a, Popped(t));
    assert a in s.own && s.own[a] == Popped(t);
    hide StackOk, HoldersOk, WrapsOk, Holding;
    assert s'.retiredHeap == s.retiredHeap && (s'.own == s.own || s'.own == s.own - {a});
    hide DoPopScan;
    if s'.own == s.own {
      WrapsFrame(s, s');
    } else {
      WrapsDelete(s, s', a);
    }
  }

  lemma StackPopWrap(s: State, s': State, t: Tid, a: Addr, res: Value, r: Addr)
    requires StackOk(s) && HoldersOk(s) && DoPopWrap(s, s', t, a, res, r)
    ensures StackOk(s')
  {
    hide Nth, IsStackChain, Distinct;
    StackFrame(s, s');
  }

  lemma HoldersPopWrap(s: State, s': State, t: Tid, a: Addr, res: Value, r: Addr)
    requires StackOk(s) && HoldersOk(s) && DoPopWrap(s, s', t, a, res, r)
    ensures HoldersOk(s')
  {
    hide Nth, IsStackChain, Distinct;
    HoldersFrame(s, s', t);
  }

  lemma WrapsAdd(s: State, s': State, a: Addr, r: Addr)
    requires WrapsOk(s) && a in s.own && !s.own[a].Wrapped? && r !in s.retiredHeap
    requires s'.retiredHeap == s.retiredHeap[r := RetiredNode(a, NULL)] && s'.own == s.own[a := Wrapped(r)]
    ensures WrapsOk(s')
  {
    forall q | q in s'.retiredHeap
      ensures s'.retiredHeap[q].node in s'.own && s'.own[s'.retiredHeap[q].node] == Wrapped(q)
    {
      assert q != r ==> s.own[s.retiredHeap[q].node] == Wrapped(q);
    }
  }

  lemma WrapsPopWrap(s: State, s': State, t: Tid, a: Addr, res: Value, r: Addr)
    requires StackOk(s) && HoldersOk(s) && WrapsOk(s) && DoPopWrap(s, s', t, a, res, r)
    ensures WrapsOk(s')
  {
    assert Holding(s.threads[t].pc, t).value == (a, Popped(t));
    assert a in s.own && s.own[a] == Popped(t);
    hide StackOk, HoldersOk, WrapsOk, Holding;
    WrapsAdd(s, s', a, r);
  }

  lemma StackSweepScan(s: State, s': State, t: Tid, current: Addr, next: Addr, node: Addr, res: Value, i: nat)
    requires StackOk(s) && HoldersOk(s) && WrapsOk(s) && DoSweepScan(s, s', t, current, next, node, res, i)
    ensures StackOk(s')
  {
    hide Nth, IsStackChain, Distinct, HoldersOk;
    StackFrame(s, s');
  }

  lemma HoldersSweepDelete(s: State, s': State, t: Tid, current: Addr, next: Addr, node: Addr, res: Value, i: nat)
    requires HoldersOk(s) && WrapsOk(s) && DoSweepScan(s, s', t, current, next, node, res, i)
    requires i >= MAX_HAZARD_POINTERS || i >= |s.slots|
    ensures HoldersOk(s')
  {
    assert s.own[s.retiredHeap[current].node] == Wrapped(current);
    hide WrapsOk, Carrying;
    HoldersFrame(s, s', t);
  }

  lemma HoldersSweepScan(s: State, s': State, t: Tid, current: Addr, next: Addr, node: Addr, res: Value, i: nat)
    requires HoldersOk(s) && WrapsOk(s) && DoSweepScan(s, s', t, current, next, node, res, i)
    ensures HoldersOk(s')
  {
    if i >= MAX_HAZARD_POINTERS || i >= |s.slots| {
      HoldersSweepDelete(s, s', t, current, next, node, res, i);
    } else {
      assert Holding(s.threads[t].pc, t).None? && Holding(s'.threads[t].pc, t).None?;
      hide WrapsOk, Holding;
      HoldersFrame(s, s', t);
    }
  }

  lemma WrapsSweepScan(s: State, s': State, t: Tid, current: Addr, next: Addr, node: Addr, res: Value, i: nat)
    requires StackOk(s) && HoldersOk(s) && WrapsOk(s) && DoSweepScan(s, s', t, current, next, node, res, i)
    ensures WrapsOk(s')
  {
    hide StackOk, HoldersOk;
    if i >= MAX_HAZARD_POINTERS || i >= |s.slots| {
      assert s.own[s.retiredHeap[current].node] == Wrapped(current);
    } else {
      WrapsFrame(s, s');
    }
  }

  /* ----- retired nodes ----- */

  lemma ListedPopWrap(s: State, s': State, t: Tid, a: Addr, res: Value, r: Addr)
    requires ListedOk(s) && CarriersOk(s) && PendingOk(s) && DoPopWrap(s, s', t, a, res, r)
    ensures ListedOk(s')
  {
    assert Carrying(s.retiredHeap, s.threads[t].pc, s.threads[t].carried);
    ListedFrame(s, s');
  }

  lemma CarriersPopWrap(s: State, s': State, t: Tid, a: Addr, res: Value, r: Addr)
    requires ListedOk(s) && CarriersOk(s) && PendingOk(s) && DoPopWrap(s, s', t, a, res, r)
    ensures CarriersOk(s')
  {
    assert Carrying(s.retiredHeap, s.threads[t].pc, s.threads[t].carried);
    CarriersFrame(s, s', t);
  }

  lemma PendingPopWrap(s: State, s': State, t: Tid, a: Addr, res: Value, r: Addr)
    requires ListedOk(s) && CarriersOk(s) && PendingOk(s) && DoPopWrap(s, s', t, a, res, r)
    ensures PendingOk(s')
  {
    assert Carrying(s.retiredHeap, s.threads[t].pc, s.threads[t].carried);
    PendingFrame(s, s', t);
  }

  lemma CarriedOwner(s: State, t: Tid, r: Addr)
    requires CarriersOk(s) && PendingOk(s) && t < |s.threads|
    requires (s.threads[t].pc.AddLoad? || s.threads[t].pc.AddCas?) && s.threads[t].pc.r == r
    ensures r in s.listOwn && s.listOwn[r] == Carried(t)
  {
    assert Carrying(s.retiredHeap, s.threads[t].pc, s.threads[t].carried);
    assert s.threads[t].carried[0] == r;
  }

  lemma ListedAddLoad(s: State, s': State, t: Tid, r: Addr, res: Value, after: After)
    requires ListedOk(s) && CarriersOk(s) && PendingOk(s) && DoAddLoad(s, s', t, r, res, after)
    ensures ListedOk(s')
  {
    CarriedOwner(s, t, r);
    hide ListedOk, CarriersOk, PendingOk;
    ListedRelink(s, s', t, r);
  }

  lemma CarriersAddLoad(s: State, s': State, t: Tid, r: Addr, res: Value, after: After)
    requires ListedOk(s) && CarriersOk(s) && PendingOk(s) && DoAddLoad(s, s', t, r, res, after)
    ensures CarriersOk(s')
  {
    assert Carrying(s.retiredHeap, s.threads[t].pc, s.threads[t].carried);
    CarriersFrame(s, s', t);
  }

  lemma PendingAddLoad(s: State, s': State, t: Tid, r: Addr, res: Value, after: After)
    requires ListedOk(s) && CarriersOk(s) && PendingOk(s) && DoAddLoad(s, s', t, r, res, after)
    ensures PendingOk(s')
  {
    var th := s.threads[t];
    CarryingRelink(s.retiredHeap, th.pc, s'.threads[t].pc, th.carried, r, s.retiredHead);
    PendingFrame(s, s', t);
  }

  lemma RetiredChainPush(heap: map<Addr, RetiredNode>, n: Addr, h: Addr, chain: seq<Addr>)
    requires IsRetiredChain(heap, h, chain) && Distinct(chain)
    requires n in heap && n != NULL && n !in chain && heap[n].next == h
    ensures IsRetiredChain(heap, n, [n] + chain) && Distinct([n] + chain)
  {
    var c := [n] + chain;
    forall i | 0 <= i < |c| ensures c[i] in heap && c[i] != NULL && heap[c[i]].next == Nth(c, i + 1) {
      if i > 0 {
        assert c[i] == chain[i - 1];
      }
    }
  }

  /** The carried node `r` is linked to the current list head. */
  ghost predicate Relinked(s: State, s': State, t: Tid, r: Addr) {
    && t < |s.threads|
    && r in s.retiredHeap && r in s.listOwn && s.listOwn[r] == Carried(t)
    && s'.retiredHeap == s.retiredHeap[r := s.retiredHeap[r].(next := s.retiredHead)]
    && s'.listOwn == s.listOwn && s'.listed == s.listed && s'.retiredHead == s.retiredHead
  }

  lemma ListedRelink(s: State, s': State, t: Tid, r: Addr)
    requires ListedOk(s) && Relinked(s, s', t, r)
    ensures ListedOk(s')
  {
    ListedFrame(s, s');
  }

  lemma CarryingTail(heap: map<Addr, RetiredNode>, r: Addr, res: Value, after: After, carried: seq<Addr>)
    requires Carrying(heap, AddCas(r, res, after), carried)
    ensures Carrying(heap, if after.ThenSweep? then SweepTake(res) else SweepNext(after.next, res), Rest(carried))
    ensures |carried| > 0 && carried[0] == r
  {
  }

  lemma CarryingRelink(heap: map<Addr, RetiredNode>, pc: PC, pc': PC, carried: seq<Addr>, r: Addr, next: Addr)
    requires pc.AddLoad? || pc.AddCas?
    requires pc' == AddCas(pc.r, pc.res, pc.after) && r == pc.r && r in heap
    requires Carrying(heap, pc, carried) && Distinct(carried)
    ensures Carrying(heap[r := heap[r].(next := next)], pc', carried)
    ensures |carried| > 0 && carried[0] == r
  {
    assert forall i :: 0 <= i < |carried[1..]| ==> carried[1..][i] != r;
  }

  lemma ListedAddCas(s: State, s': State, t: Tid, r: Addr, res: Value, after: After)
    requires ListedOk(s) && CarriersOk(s) && PendingOk(s) && DoAddCas(s, s', t, r, res, after)
    ensures ListedOk(s')
  {
    assert r in s.listOwn && s.listOwn[r] == Carried(t) by {
      CarryingTail(s.retiredHeap, r, res, after, s.threads[t].carried);
    }
    if s.retiredHead == s.retiredHeap[r].next {
      RetiredChainPush(s.retiredHeap, r, s.retiredHead, s.listed);
    } else {
      ListedRelink(s, s', t, r);
    }
  }

  lemma CarriersAddCas(s: State, s': State, t: Tid, r: Addr, res: Value, after: After)
    requires ListedOk(s) && CarriersOk(s) && PendingOk(s) && DoAddCas(s, s', t, r, res, after)
    ensures CarriersOk(s')
  {
    CarryingTail(s.retiredHeap, r, res, after, s.threads[t].carried);
    if s.retiredHead == s.retiredHeap[r].next {
      CarriersDrop(s, s', t);
    } else {
      CarriersFrame(s, s', t);
    }
  }

  lemma PendingAddCas(s: State, s': State, t: Tid, r: Addr, res: Value, after: After)
    requires ListedOk(s) && CarriersOk(s) && PendingOk(s) && DoAddCas(s, s', t, r, res, after)
    ensures PendingOk(s')
  {
    var th := s.threads[t];
    if s.retiredHead == s.retiredHeap[r].next {
      CarryingTail(s.retiredHeap, r, res, after, th.carried);
    } else {
      CarryingRelink(s.retiredHeap, th.pc, th.pc, th.carried, r, s.retiredHead);
    }
    PendingFrame(s, s', t);
  }

  lemma ListedSweepTake(s: State, s': State, t: Tid, res: Value)
    requires ListedOk(s) && CarriersOk(s) && PendingOk(s) && DoSweepTake(s, s', t, res)
    ensures ListedOk(s')
  {

  }

  lemma CarriersSweepTake(s: State, s': State, t: Tid, res: Value)
    requires ListedOk(s) && CarriersOk(s) && PendingOk(s) && DoSweepTake(s, s', t, res)
    ensures CarriersOk(s')
  {
    assert Carrying(s.retiredHeap, s.threads[t].pc, s.threads[t].carried);
    CarriersFrame(s, s', t);
  }

  lemma PendingSweepTake(s: State, s': State, t: Tid, res: Value)
    requires ListedOk(s) && CarriersOk(s) && PendingOk(s) && DoSweepTake(s, s', t, res)
    ensures PendingOk(s')
  {
    assert Carrying(s.retiredHeap, s.threads[t].pc, s.threads[t].carried);
    PendingFrame(s, s', t);
  }

  lemma ListedSweepNext(s: State, s': State, t: Tid, current: Addr, res: Value)
    requires ListedOk(s) && CarriersOk(s) && PendingOk(s) && DoSweepNext(s, s', t, current, res)
    ensures ListedOk(s')
  {
    assert Carrying(s.retiredHeap, s.threads[t].pc, s.threads[t].carried);
    ListedFrame(s, s');
  }

  lemma CarriersSweepNext(s: State, s': State, t: Tid, current: Addr, res: Value)
    requires ListedOk(s) && CarriersOk(s) && PendingOk(s) && DoSweepNext(s, s', t, current, res)
    ensures CarriersOk(s')
  {
    assert Carrying(s.retiredHeap, s.threads[t].pc, s.threads[t].carried);
    CarriersFrame(s, s', t);
  }

  lemma PendingSweepNext(s: State, s': State, t: Tid, current: Addr, res: Value)
    requires ListedOk(s) && CarriersOk(s) && PendingOk(s) && DoSweepNext(s, s', t, current, res)
    ensures PendingOk(s')
  {
    assert Carrying(s.retiredHeap, s.threads[t].pc, s.threads[t].carried);
    if current != NULL {
      RetiredChainTail(s.retiredHeap, current, s.threads[t].carried);
    }
    PendingFrame(s, s', t);
  }

  lemma ListedSweepDelete(s: State, s': State, t: Tid, current: Addr, next: Addr, node: Addr, res: Value, i: nat)
    requires ListedOk(s) && DoSweepScan(s, s', t, current, next, node, res, i)
    requires current in s.listOwn && s.listOwn[current] == Carried(t)
    requires i >= MAX_HAZARD_POINTERS || i >= |s.slots|
    ensures ListedOk(s')
  {
    hide Nth, IsRetiredChain, Distinct;
    ListedFrame(s, s');
  }

  lemma ListedSweepScan(s: State, s': State, t: Tid, current: Addr, next: Addr, node: Addr, res: Value, i: nat)
    requires ListedOk(s) && CarriersOk(s) && PendingOk(s) && DoSweepScan(s, s', t, current, next, node, res, i)
    ensures ListedOk(s')
  {
    hide Nth, IsRetiredChain, Distinct;
    assert Carrying(s.retiredHeap, s.threads[t].pc, s.threads[t].carried);
    assert s.threads[t].carried[0] == current;
    hide PendingOk, Carrying;
    if i >= MAX_HAZARD_POINTERS || i >= |s.slots| {
      ListedSweepDelete(s, s', t, current, next, node, res, i);
    } else {
      hide CarriersOk;
      ListedFrame(s, s');
    }
  }

  lemma CarriersSweepScan(s: State, s': State, t: Tid, current: Addr, next: Addr, node: Addr, res: Value, i: nat)
    requires ListedOk(s) && CarriersOk(s) && PendingOk(s) && DoSweepScan(s, s', t, current, next, node, res, i)
    ensures CarriersOk(s')
  {
    hide ListedOk, IsRetiredChain, Nth;
    assert Carrying(s.retiredHeap, s.threads[t].pc, s.threads[t].carried);
    assert s.threads[t].carried != [] && s.threads[t].carried[0] == current;
    hide PendingOk, Carrying;
    if i >= MAX_HAZARD_POINTERS || i >= |s.slots| {
      CarriersDrop(s, s', t);
    } else {
      CarriersFrame(s, s', t);
    }
  }

  lemma PendingSweepDelete(s: State, s': State, t: Tid, current: Addr, next: Addr, node: Addr, res: Value, i: nat)
    requires CarriersOk(s) && PendingOk(s) && DoSweepScan(s, s', t, current, next, node, res, i)
    requires i >= MAX_HAZARD_POINTERS || i >= |s.slots|
    ensures PendingOk(s')
  {
    var th := s.threads[t];
    assert Carrying(s.retiredHeap, th.pc, th.carried);
    forall j | 0 <= j < |Rest(th.carried)| ensures Rest(th.carried)[j] in s'.retiredHeap {
      assert Rest(th.carried)[j] == th.carried[j + 1];
    }
    PendingFrame(s, s', t);
  }

  lemma PendingSweepScan(s: State, s': State, t: Tid, current: Addr, next: Addr, node: Addr, res: Value, i: nat)
    requires ListedOk(s) && CarriersOk(s) && PendingOk(s) && DoSweepScan(s, s', t, current, next, node, res, i)
    ensures PendingOk(s')
  {
    if i >= MAX_HAZARD_POINTERS || i >= |s.slots| {
      PendingSweepDelete(s, s', t, current, next, node, res, i);
    } else {
      assert Carrying(s.retiredHeap, s.threads[t].pc, s.threads[t].carried);
      PendingFrame(s, s', t);
    }
  }

  /* ----- every transition keeps the ownership of nodes ----- */

  ghost predicate NodesOk(s: State) {
    StackOk(s) && HoldersOk(s) && WrapsOk(s)
  }

  ghost predicate RetiredOk(s: State) {
    ListedOk(s) && CarriersOk(s) && PendingOk(s)
  }

  ghost predicate SameNodes(s: State, s': State, t: Tid) {
    && OnlyThread(s, s', t)
    && s'.heap == s.heap && s'.own == s.own && s'.stack == s.stack && s'.head == s.head
    && s'.retiredHeap.Keys == s.retiredHeap.Keys
    && (forall r :: r in s.retiredHeap ==> s'.retiredHeap[r].node == s.retiredHeap[r].node)
    && Holding(s'.threads[t].pc, t) == Holding(s.threads[t].pc, t)
  }

  lemma NodesFrame(s: State, s': State, t: Tid)
    requires NodesOk(s) && SameNodes(s, s', t)
    ensures NodesOk(s')
  {
    StackFrame(s, s');
    HoldersFrame(s, s', t);
    WrapsFrame(s, s');
  }

  ghost predicate SameRetired(s: State, s': State, t: Tid) {
    && OnlyThread(s, s', t)
    && s'.retiredHeap == s.retiredHeap && s'.listOwn == s.listOwn
    && s'.listed == s.listed && s'.retiredHead == s.retiredHead
    && s'.threads[t].carried == s.threads[t].carried
    && Carrying(s.retiredHeap, s.threads[t].pc, []) && Carrying(s.retiredHeap, s'.threads[t].pc, [])
  }

  lemma RetiredFrame(s: State, s': State, t: Tid)
    requires RetiredOk(s) && SameRetired(s, s', t)
    ensures RetiredOk(s')
  {
    assert Carrying(s.retiredHeap, s.threads[t].pc, s.threads[t].carried);
    ListedFrame(s, s');
    CarriersFrame(s, s', t);
    PendingFrame(s, s', t);
  }

  lemma StartPopIsQuiet(s: State, s': State, t: Tid)
    requires StartPop(s, s', t)
    ensures SameNodes(s, s', t) && SameRetired(s, s', t)
  {
    hide IsRetiredChain, HeadAndTail;
  }

  lemma ClaimIsQuiet(s: State, s': State, t: Tid, i: nat)
    requires DoClaim(s, s', t, i)
    ensures SameNodes(s, s', t) && SameRetired(s, s', t)
  {
    hide IsRetiredChain, HeadAndTail;
  }

  lemma ExitIsQuiet(s: State, s': State, t: Tid)
    requires ExitClear(s, s', t) || ExitRelease(s, s', t)
    ensures SameNodes(s, s', t) && SameRetired(s, s', t)
  {
    hide IsRetiredChain, HeadAndTail;
  }

  lemma SlotNextIsQuiet(s: State, s': State, t: Tid)
    requires SlotNext(s, s', t)
    ensures SameNodes(s, s', t) && SameRetired(s, s', t)
  {
    hide SameNodes, SameRetired, StartPop, DoClaim, ExitClear, ExitRelease;
    match s.threads[t].pc
    case Idle =>
      if StartPop(s, s', t) {
        StartPopIsQuiet(s, s', t);
      } else {
        ExitIsQuiet(s, s', t);
      }
    case Claim(i) => ClaimIsQuiet(s, s', t, i);
    case Exiting => ExitIsQuiet(s, s', t);
  }

  lemma PublishIsQuiet(s: State, s': State, t: Tid, a: Addr)
    requires DoPopLoad(s, s', t) || DoPopPublish(s, s', t, a) || DoPopNext(s, s', t, a)
    ensures SameRetired(s, s', t) && SameNodes(s, s', t)
  {
    hide IsRetiredChain, HeadAndTail;
  }

  lemma ConfirmIsQuiet(s: State, s': State, t: Tid, a: Addr)
    requires DoPopConfirm(s, s', t, a)
    ensures SameRetired(s, s', t) && SameNodes(s, s', t)
  {
    hide IsRetiredChain, HeadAndTail;
  }

  lemma CasIsQuiet(s: State, s': State, t: Tid, a: Addr, next: Addr)
    requires DoPopCas(s, s', t, a, next)
    ensures SameRetired(s, s', t)
  {
    hide IsRetiredChain, HeadAndTail;
  }

  lemma LookNextIsQuiet(s: State, s': State, t: Tid)
    requires LookNext(s, s', t)
    ensures SameRetired(s, s', t)
    ensures !s.threads[t].pc.PopCas? ==> SameNodes(s, s', t)
  {
    hide SameNodes, SameRetired, DoPopLoad, DoPopPublish, DoPopConfirm, DoPopNext, DoPopCas;
    match s.threads[t].pc
    case PopLoad => PublishIsQuiet(s, s', t, NULL);
    case PopPublish(a) => PublishIsQuiet(s, s', t, a);
    case PopConfirm(a) => ConfirmIsQuiet(s, s', t, a);
    case PopNext(a) => PublishIsQuiet(s, s', t, a);
    case PopCas(a, next) => CasIsQuiet(s, s', t, a, next);
  }

  lemma PopScanIsQuiet(s: State, s': State, t: Tid, a: Addr, res: Value, i: nat)
    requires DoPopScan(s, s', t, a, res, i)
    ensures SameRetired(s, s', t)
  {
    hide IsRetiredChain, HeadAndTail;
  }

  lemma DisposeNextIsQuiet(s: State, s': State, t: Tid)
    requires DisposeNext(s, s', t)
    ensures !s.threads[t].pc.PopWrap? ==> SameRetired(s, s', t)
    ensures s.threads[t].pc.PopClear? || s.threads[t].pc.PopData? ==> SameNodes(s, s', t)
  {
    hide IsRetiredChain, HeadAndTail;
    match s.threads[t].pc
    case PopScan(a, res, i) => PopScanIsQuiet(s, s', t, a, res, i);
    case _ =>
  }

  lemma PushNextIsQuiet(s: State, s': State, t: Tid)
    requires PushNext(s, s', t)
    ensures SameRetired(s, s', t)
  {
    hide IsRetiredChain, HeadAndTail;
  }

  lemma AddIsQuiet(s: State, s': State, t: Tid, r: Addr, res: Value, after: After)
    requires DoAddLoad(s, s', t, r, res, after) || DoAddCas(s, s', t, r, res, after)
    ensures SameNodes(s, s', t)
  {
  }

  lemma RetireNextIsQuiet(s: State, s': State, t: Tid)
    requires RetireNext(s, s', t) && !s.threads[t].pc.SweepScan?
    ensures SameNodes(s, s', t)
  {
    match s.threads[t].pc
    case AddLoad(r, res, after) => AddIsQuiet(s, s', t, r, res, after);
    case AddCas(r, res, after) => AddIsQuiet(s, s', t, r, res, after);
    case _ =>
  }

  lemma NodesPush(s: State, s': State, t: Tid)
    requires NodesOk(s) && PushNext(s, s', t)
    ensures NodesOk(s')
  {
    match s.threads[t].pc
    case Idle =>
      var v, n :| StartPush(s, s', t, v, n);
      StackStartPush(s, s', t, v, n);
      HoldersStartPush(s, s', t, v, n);
      WrapsStartPush(s, s', t, v, n);
    case PushLoad(n) =>
      StackPushLoad(s, s', t, n);
      HoldersPushLoad(s, s', t, n);
      WrapsPushLoad(s, s', t, n);
    case PushCas(n) =>
      StackPushCas(s, s', t, n);
      HoldersPushCas(s, s', t, n);
      WrapsPushCas(s, s', t, n);
  }

  lemma NodesLook(s: State, s': State, t: Tid)
    requires NodesOk(s) && ConfirmedOk(s) && LookNext(s, s', t)
    ensures NodesOk(s')
  {
    LookNextIsQuiet(s, s', t);
    match s.threads[t].pc
    case PopCas(a, next) =>
      assert ConfirmedAt(s, t);
      if s.head == a {
        HeadIsStacked(s);
      }
      StackPopCas(s, s', t, a, next);
      HoldersPopCas(s, s', t, a, next);
      WrapsPopCas(s, s', t, a, next);
    case _ =>
      NodesFrame(s, s', t);
  }

  lemma NodesDispose(s: State, s': State, t: Tid)
    requires NodesOk(s) && DisposeNext(s, s', t)
    ensures NodesOk(s')
  {
    hide StackOk, HoldersOk, WrapsOk, ConfirmedOk, SameRetired, SameNodes;
    DisposeNextIsQuiet(s, s', t);
    match s.threads[t].pc
    case PopScan(a, res, i) =>
      StackPopScan(s, s', t, a, res, i);
      HoldersPopScan(s, s', t, a, res, i);
      WrapsPopScan(s, s', t, a, res, i);
    case PopWrap(a, res) =>
      var r :| DoPopWrap(s, s', t, a, res, r);
      StackPopWrap(s, s', t, a, res, r);
      HoldersPopWrap(s, s', t, a, res, r);
      WrapsPopWrap(s, s', t, a, res, r);
    case _ =>
      NodesFrame(s, s', t);
  }

  lemma NodesRetire(s: State, s': State, t: Tid)
    requires NodesOk(s) && RetireNext(s, s', t)
    ensures NodesOk(s')
  {
    hide StackOk, HoldersOk, WrapsOk, ConfirmedOk, SameRetired, SameNodes;
    match s.threads[t].pc
    case SweepScan(current, next, node, res, i) =>
      StackSweepScan(s, s', t, current, next, node, res, i);
      HoldersSweepScan(s, s', t, current, next, node, res, i);
      WrapsSweepScan(s, s', t, current, next, node, res, i);
    case _ =>
      RetireNextIsQuiet(s, s', t);
      NodesFrame(s, s', t);
  }

  lemma NodesNext(s: State, s': State, t: Tid)
    requires NodesOk(s) && ConfirmedOk(s) && Next(s, s', t)
    ensures NodesOk(s')
  {
    hide PushNext, SlotNext, LookNext, DisposeNext, RetireNext, StackOk, HoldersOk, WrapsOk, ConfirmedOk, SameRetired, SameNodes;
    if PushNext(s, s', t) {
      NodesPush(s, s', t);
    } else if SlotNext(s, s', t) {
      SlotNextIsQuiet(s, s', t);
      NodesFrame(s, s', t);
    } else if LookNext(s, s', t) {
      NodesLook(s, s', t);
    } else if DisposeNext(s, s', t) {
      NodesDispose(s, s', t);
    } else {
      NodesRetire(s, s', t);
    }
  }

  lemma RetiredRetire(s: State, s': State, t: Tid)
    requires RetiredOk(s) && RetireNext(s, s', t)
    ensures RetiredOk(s')
  {
    hide ListedOk, CarriersOk, PendingOk, SameRetired, SameNodes;
    match s.threads[t].pc
    case AddLoad(r, res, after) =>
      ListedAddLoad(s, s', t, r, res, after);
      CarriersAddLoad(s, s', t, r, res, after);
      PendingAddLoad(s, s', t, r, res, after);
    case AddCas(r, res, after) =>
      ListedAddCas(s, s', t, r, res, after);
      CarriersAddCas(s, s', t, r, res, after);
      PendingAddCas(s, s', t, r, res, after);
    case SweepTake(res) =>
      ListedSweepTake(s, s', t, res);
      CarriersSweepTake(s, s', t, res);
      PendingSweepTake(s, s', t, res);
    case SweepNext(current, res) =>
      ListedSweepNext(s, s', t, current, res);
      CarriersSweepNext(s, s', t, current, res);
      PendingSweepNext(s, s', t, current, res);
    case SweepScan(current, next, node, res, i) =>
      ListedSweepScan(s, s', t, current, next, node, res, i);
      CarriersSweepScan(s, s', t, current, next, node, res, i);
      PendingSweepScan(s, s', t, current, next, node, res, i);
  }

  lemma RetiredDispose(s: State, s': State, t: Tid)
    requires RetiredOk(s) && DisposeNext(s, s', t)
    ensures RetiredOk(s')
  {
    hide ListedOk, CarriersOk, PendingOk, SameRetired, SameNodes;
    match s.threads[t].pc
    case PopWrap(a, res) =>
      var r :| DoPopWrap(s, s', t, a, res, r);
      ListedPopWrap(s, s', t, a, res, r);
      CarriersPopWrap(s, s', t, a, res, r);
      PendingPopWrap(s, s', t, a, res, r);
    case _ =>
      DisposeNextIsQuiet(s, s', t);
      RetiredFrame(s, s', t);
  }

  lemma RetiredNext(s: State, s': State, t: Tid)
    requires RetiredOk(s) && Next(s, s', t)
    ensures RetiredOk(s')
  {
    hide PushNext, SlotNext, LookNext, DisposeNext, RetireNext, ListedOk, CarriersOk, PendingOk, SameRetired, SameNodes;
    if RetireNext(s, s', t) {
      RetiredRetire(s, s', t);
    } else if DisposeNext(s, s', t) {
      RetiredDispose(s, s', t);
    } else {
      if PushNext(s, s', t) {
        PushNextIsQuiet(s, s', t);
      } else if SlotNext(s, s', t) {
        SlotNextIsQuiet(s, s', t);
      } else {
        LookNextIsQuiet(s, s', t);
      }
      RetiredFrame(s, s', t);
    }
  }

  /* ----- slots ----- */

  lemma SlotsTake(s: State, s': State, t: Tid, i: nat)
    requires SlotsOk(s) && DoClaim(s, s', t, i) && i < MAX_HAZARD_POINTERS && s.slots[i].id == None
    ensures SlotsOk(s')
  {
    assert s.threads[t].slot.None? && PointerOk(PopLoad, s.slots[i].pointer);
    hide NeedsSlot, PointerOk;
  }

  lemma SlotsClaim(s: State, s': State, t: Tid, i: nat)
    requires SlotsOk(s) && DoClaim(s, s', t, i)
    ensures SlotsOk(s')
  {
    if i < MAX_HAZARD_POINTERS && s.slots[i].id == None {
      SlotsTake(s, s', t, i);
    } else {
      SlotsFrame(s, s', t);
    }
  }

  lemma SlotsExitRelease(s: State, s': State, t: Tid)
    requires SlotsOk(s) && ExitRelease(s, s', t)
    ensures SlotsOk(s')
  {
  }

  lemma SlotsSlot(s: State, s': State, t: Tid)
    requires SlotsOk(s) && SlotNext(s, s', t)
    ensures SlotsOk(s')
  {
    match s.threads[t].pc
    case Claim(i) => SlotsClaim(s, s', t, i);
    case Exiting => SlotsExitRelease(s, s', t);
    case _ => SlotsFrame(s, s', t);
  }

  lemma SlotsPush(s: State, s': State, t: Tid)
    requires SlotsOk(s) && PushNext(s, s', t)
    ensures SlotsOk(s')
  {
    SlotsFrame(s, s', t);
  }

  lemma SlotsPublish(s: State, s': State, t: Tid, a: Addr)
    requires SlotsOk(s) && DoPopPublish(s, s', t, a)
    ensures SlotsOk(s')
  {
    SlotsFrame(s, s', t);
  }

  lemma SlotsConfirm(s: State, s': State, t: Tid, a: Addr)
    requires SlotsOk(s) && DoPopConfirm(s, s', t, a)
    ensures SlotsOk(s')
  {
    SlotsFrame(s, s', t);
  }

  lemma SlotsPopCas(s: State, s': State, t: Tid, a: Addr, next: Addr)
    requires SlotsOk(s) && DoPopCas(s, s', t, a, next)
    ensures SlotsOk(s')
  {
    SlotsFrame(s, s', t);
  }

  lemma SlotsLook(s: State, s': State, t: Tid)
    requires SlotsOk(s) && LookNext(s, s', t)
    ensures SlotsOk(s')
  {
    match s.threads[t].pc
    case PopPublish(a) => SlotsPublish(s, s', t, a);
    case PopConfirm(a) => SlotsConfirm(s, s', t, a);
    case PopCas(a, next) => SlotsPopCas(s, s', t, a, next);
    case _ => SlotsFrame(s, s', t);
  }

  lemma SlotsPopClear(s: State, s': State, t: Tid, a: Addr)
    requires SlotsOk(s) && DoPopClear(s, s', t, a)
    ensures SlotsOk(s')
  {
    SlotsFrame(s, s', t);
  }

  lemma SlotsPopScan(s: State, s': State, t: Tid, a: Addr, res: Value, i: nat)
    requires SlotsOk(s) && DoPopScan(s, s', t, a, res, i)
    ensures SlotsOk(s')
  {
    SlotsFrame(s, s', t);
  }

  lemma SlotsDispose(s: State, s': State, t: Tid)
    requires SlotsOk(s) && DisposeNext(s, s', t)
    ensures SlotsOk(s')
  {
    match s.threads[t].pc
    case PopClear(a) => SlotsPopClear(s, s', t, a);
    case PopScan(a, res, i) => SlotsPopScan(s, s', t, a, res, i);
    case _ => SlotsFrame(s, s', t);
  }

  /** A transition of the retiring thread leaves the slots as they are. */
  ghost predicate KeepsSlots(s: State, s': State, t: Tid) {
    && OnlyThread(s, s', t) && s'.slots == s.slots && s'.threads[t].slot == s.threads[t].slot
    && NeedsSlot(s.threads[t].pc) && !s'.threads[t].pc.Claim?
    && (forall p :: PointerOk(s.threads[t].pc, p) ==> PointerOk(s'.threads[t].pc, p))
  }

  lemma AddKeepsSlots(s: State, s': State, t: Tid, r: Addr, res: Value, after: After)
    requires DoAddLoad(s, s', t, r, res, after) || DoAddCas(s, s', t, r, res, after)
    ensures KeepsSlots(s, s', t)
  {
  }

  lemma SweepKeepsSlots(s: State, s': State, t: Tid, current: Addr, next: Addr, node: Addr, res: Value, i: nat)
    requires DoSweepScan(s, s', t, current, next, node, res, i)
    ensures KeepsSlots(s, s', t)
  {
  }

  lemma RetireKeepsSlots(s: State, s': State, t: Tid)
    requires RetireNext(s, s', t)
    ensures KeepsSlots(s, s', t)
  {
    match s.threads[t].pc
    case AddLoad(r, res, after) => AddKeepsSlots(s, s', t, r, res, after);
    case AddCas(r, res, after) => AddKeepsSlots(s, s', t, r, res, after);
    case SweepScan(current, next, node, res, i) => SweepKeepsSlots(s, s', t, current, next, node, res, i);
    case _ =>
  }

  lemma SlotsRetire(s: State, s': State, t: Tid)
    requires SlotsOk(s) && RetireNext(s, s', t)
    ensures SlotsOk(s')
  {
    RetireKeepsSlots(s, s', t);
    hide RetireNext, PointerOk, NeedsSlot;
    SlotsFrame(s, s', t);
  }

  lemma SlotsNext(s: State, s': State, t: Tid)
    requires SlotsOk(s) && Next(s, s', t)
    ensures SlotsOk(s')
  {
    hide SlotsOk, PushNext, SlotNext, LookNext, DisposeNext, RetireNext;
    if PushNext(s, s', t) {
      SlotsPush(s, s', t);
    } else if SlotNext(s, s', t) {
      SlotsSlot(s, s', t);
    } else if LookNext(s, s', t) {
      SlotsLook(s, s', t);
    } else if DisposeNext(s, s', t) {
      SlotsDispose(s, s', t);
    } else {
      SlotsRetire(s, s', t);
    }
  }

  /* ----- confirmed hazards ----- */

  lemma ConfirmedQuiet(s: State, s': State, t: Tid)
    requires ConfirmedOk(s) && SameNodes(s, s', t) && ConfirmedAt(s', t)
    ensures ConfirmedOk(s')
  {
    ConfirmedFrame(s, s', t);
  }

  lemma ConfirmedStartPush(s: State, s': State, t: Tid, v: Value, n: Addr)
    requires ConfirmedOk(s) && StartPush(s, s', t, v, n)
    ensures ConfirmedOk(s')
  {
    ConfirmedFrame(s, s', t);
  }

  lemma ConfirmedPushLoad(s: State, s': State, t: Tid, n: Addr)
    requires HoldersOk(s) && ConfirmedOk(s) && DoPushLoad(s, s', t, n)
    ensures ConfirmedOk(s')
  {
    assert Holding(s.threads[t].pc, t).value == (n, Pushing(t));
    ConfirmedFrame(s, s', t);
  }

  lemma ConfirmedPushCas(s: State, s': State, t: Tid, n: Addr)
    requires HoldersOk(s) && ConfirmedOk(s) && DoPushCas(s, s', t, n)
    ensures ConfirmedOk(s')
  {
    assert Holding(s.threads[t].pc, t).value == (n, Pushing(t));
    ConfirmedFrame(s, s', t);
  }

  lemma ConfirmedPush(s: State, s': State, t: Tid)
    requires NodesOk(s) && ConfirmedOk(s) && PushNext(s, s', t)
    ensures ConfirmedOk(s')
  {
    match s.threads[t].pc
    case Idle =>
      var v, n :| StartPush(s, s', t, v, n);
      ConfirmedStartPush(s, s', t, v, n);
    case PushLoad(n) => ConfirmedPushLoad(s, s', t, n);
    case PushCas(n) => ConfirmedPushCas(s, s', t, n);
  }

  lemma ConfirmedConfirm(s: State, s': State, t: Tid, a: Addr)
    requires StackOk(s) && ConfirmedOk(s) && DoPopConfirm(s, s', t, a)
    ensures ConfirmedOk(s')
  {
    assert s.head == a && a != NULL ==> s.stack[0] == a;
    hide IsStackChain, Distinct;
    ConfirmedFrame(s, s', t);
  }

  lemma ConfirmedCas(s: State, s': State, t: Tid, a: Addr, next: Addr)
    requires StackOk(s) && ConfirmedOk(s) && DoPopCas(s, s', t, a, next)
    ensures ConfirmedOk(s')
  {
    hide IsStackChain, Distinct;
    assert ConfirmedAt(s, t);
    ConfirmedFrame(s, s', t);
  }

  lemma ConfirmedLookOn(s: State, s': State, t: Tid)
    requires ConfirmedOk(s) && t < |s.threads|
    requires s.threads[t].pc.PopLoad? || s.threads[t].pc.PopPublish? || s.threads[t].pc.PopNext?
    requires LookNext(s, s', t)
    ensures ConfirmedOk(s')
  {
    assert ConfirmedAt(s, t);
    ConfirmedFrame(s, s', t);
  }

  lemma ConfirmedLook(s: State, s': State, t: Tid)
    requires StackOk(s) && ConfirmedOk(s) && LookNext(s, s', t)
    ensures ConfirmedOk(s')
  {
    match s.threads[t].pc
    case PopConfirm(a) => ConfirmedConfirm(s, s', t, a);
    case PopCas(a, next) => ConfirmedCas(s, s', t, a, next);
    case PopLoad => ConfirmedLookOn(s, s', t);
    case PopPublish(_) => ConfirmedLookOn(s, s', t);
    case PopNext(_) => ConfirmedLookOn(s, s', t);
  }

  /** After a full scan that met `a` nowhere, no thread protects `a`. */
  lemma ScannedIsUnprotected(s: State, u: Tid, a: Addr)
    requires SlotsOk(s) && ScansOk(s) && u < |s.threads|
    requires Scanning(s.threads[u].pc).Some? && Scanning(s.threads[u].pc).value.0 == a && Scanning(s.threads[u].pc).value.1 >= MAX_HAZARD_POINTERS
    ensures forall t :: 0 <= t < |s.threads| ==> Protects(s.threads[t].pc) != Some(a)
  {
    forall t | 0 <= t < |s.threads| ensures Protects(s.threads[t].pc) != Some(a) {
      assert NotPassed(s, t, u);
    }
  }

  lemma ConfirmedPopScan(s: State, s': State, t: Tid, a: Addr, res: Value, i: nat)
    requires ConfirmedOk(s) && SlotsOk(s) && ScansOk(s) && DoPopScan(s, s', t, a, res, i)
    ensures ConfirmedOk(s')
  {
    if i >= MAX_HAZARD_POINTERS {
      ScannedIsUnprotected(s, t, a);
    }
    ConfirmedFrame(s, s', t);
  }

  lemma ConfirmedPopWrap(s: State, s': State, t: Tid, a: Addr, res: Value, r: Addr)
    requires ConfirmedOk(s) && DoPopWrap(s, s', t, a, res, r)
    ensures ConfirmedOk(s')
  {
    ConfirmedFrame(s, s', t);
  }

  lemma ConfirmedDispose(s: State, s': State, t: Tid)
    requires ConfirmedOk(s) && SlotsOk(s) && ScansOk(s) && DisposeNext(s, s', t)
    ensures ConfirmedOk(s')
  {
    hide ConfirmedOk, SlotsOk, ScansOk, SameNodes, SameRetired;
    match s.threads[t].pc
    case PopScan(a, res, i) => ConfirmedPopScan(s, s', t, a, res, i);
    case PopWrap(a, res) =>
      var r :| DoPopWrap(s, s', t, a, res, r);
      ConfirmedPopWrap(s, s', t, a, res, r);
    case _ =>
      DisposeNextIsQuiet(s, s', t);
      ConfirmedQuiet(s, s', t);
  }

  lemma ConfirmedSweepScan(s: State, s': State, t: Tid, current: Addr, next: Addr, node: Addr, res: Value, i: nat)
    requires PendingOk(s) && ConfirmedOk(s) && SlotsOk(s) && ScansOk(s) && DoSweepScan(s, s', t, current, next, node, res, i)
    ensures ConfirmedOk(s')
  {
    assert Carrying(s.retiredHeap, s.threads[t].pc, s.threads[t].carried);
    if i >= MAX_HAZARD_POINTERS {
      ScannedIsUnprotected(s, t, node);
    }
    ConfirmedFrame(s, s', t);
  }

  lemma ConfirmedRetire(s: State, s': State, t: Tid)
    requires PendingOk(s) && ConfirmedOk(s) && SlotsOk(s) && ScansOk(s) && RetireNext(s, s', t)
    ensures ConfirmedOk(s')
  {
    hide PendingOk, ConfirmedOk, SlotsOk, ScansOk, SameNodes;
    match s.threads[t].pc
    case SweepScan(current, next, node, res, i) => ConfirmedSweepScan(s, s', t, current, next, node, res, i);
    case _ =>
      RetireNextIsQuiet(s, s', t);
      ConfirmedQuiet(s, s', t);
  }

  lemma ConfirmedSlot(s: State, s': State, t: Tid)
    requires ConfirmedOk(s) && SlotNext(s, s', t)
    ensures ConfirmedOk(s')
  {
    SlotNextIsQuiet(s, s', t);
    hide ConfirmedOk, SameNodes, SameRetired;
    ConfirmedQuiet(s, s', t);
  }

  lemma ConfirmedNext(s: State, s': State, t: Tid)
    requires NodesOk(s) && PendingOk(s) && ConfirmedOk(s) && SlotsOk(s) && ScansOk(s) && Next(s, s', t)
    ensures ConfirmedOk(s')
  {
    hide StackOk, HoldersOk, WrapsOk, PendingOk, ConfirmedOk, SlotsOk, ScansOk, PushNext, SlotNext, LookNext, DisposeNext, RetireNext;
    if PushNext(s, s', t) {
      ConfirmedPush(s, s', t);
    } else if SlotNext(s, s', t) {
      ConfirmedSlot(s, s', t);
    } else if LookNext(s, s', t) {
      ConfirmedLook(s, s', t);
    } else if DisposeNext(s, s', t) {
      ConfirmedDispose(s, s', t);
    } else {
      ConfirmedRetire(s, s', t);
    }
  }

  /* ----- scans ----- */

  /** A node that is being scanned for is no longer in the stack. */
  lemma ScannedIsOut(s: State, u: Tid)
    requires HoldersOk(s) && WrapsOk(s) && PendingOk(s) && u < |s.threads| && Scanning(s.threads[u].pc).Some?
    ensures Scanning(s.threads[u].pc).value.0 in s.own && s.own[Scanning(s.threads[u].pc).value.0] != InStack
  {
    match s.threads[u].pc
    case PopScan(a, _, _) => assert Holding(s.threads[u].pc, u).value == (a, Popped(u));
    case SweepScan(current, _, _, _, _) =>
      assert Carrying(s.retiredHeap, s.threads[u].pc, s.threads[u].carried);
  }

  ghost predicate SameScan(pc: PC, pc': PC) {
    && Protects(pc') in {None, Protects(pc)}
    && (Scanning(pc') in {None, Scanning(pc)} || Scanning(pc').value.1 == 0)
  }

  lemma PushSameScan(s: State, s': State, t: Tid)
    requires PushNext(s, s', t)
    ensures OnlyThread(s, s', t) && SameScan(s.threads[t].pc, s'.threads[t].pc)
    ensures Protects(s'.threads[t].pc) == None
  {
  }

  lemma SlotSameScan(s: State, s': State, t: Tid)
    requires SlotNext(s, s', t)
    ensures OnlyThread(s, s', t) && SameScan(s.threads[t].pc, s'.threads[t].pc)
    ensures Protects(s'.threads[t].pc) == None
  {
    match s.threads[t].pc
    case Idle => assert StartPop(s, s', t) || ExitClear(s, s', t);
    case Claim(i) => assert DoClaim(s, s', t, i);
    case Exiting => assert ExitRelease(s, s', t);
  }

  lemma LookSameScan(s: State, s': State, t: Tid)
    requires LookNext(s, s', t) && !s.threads[t].pc.PopConfirm?
    ensures OnlyThread(s, s', t) && SameScan(s.threads[t].pc, s'.threads[t].pc)
    ensures s'.threads[t].slot == s.threads[t].slot
  {
  }

  lemma DisposeSameScan(s: State, s': State, t: Tid)
    requires DisposeNext(s, s', t) && !s.threads[t].pc.PopScan?
    ensures OnlyThread(s, s', t) && SameScan(s.threads[t].pc, s'.threads[t].pc)
    ensures s'.threads[t].slot == s.threads[t].slot
  {
  }

  lemma RetireSameScan(s: State, s': State, t: Tid)
    requires RetireNext(s, s', t) && !s.threads[t].pc.SweepScan?
    ensures OnlyThread(s, s', t) && SameScan(s.threads[t].pc, s'.threads[t].pc)
    ensures s'.threads[t].slot == s.threads[t].slot
  {
  }

  lemma ScansPopConfirm(s: State, s': State, t: Tid, a: Addr)
    requires NodesOk(s) && PendingOk(s) && ScansOk(s) && DoPopConfirm(s, s', t, a)
    ensures ScansOk(s')
  {
    if s.head == a && a != NULL {
      assert s.stack[0] == a;
    }
    forall x, y | 0 <= x < |s.threads| && 0 <= y < |s.threads| ensures NotPassed(s', x, y) {
      assert NotPassed(s, x, y);
      if Scanning(s.threads[y].pc).Some? {
        ScannedIsOut(s, y);
      }
    }
  }

  /** A slot that counts as a protection holds the protected node. */
  lemma SlotProtects(s: State, t: Tid)
    requires SlotsOk(s) && t < |s.threads| && s.threads[t].slot.Some? && Protects(s.threads[t].pc).Some?
    ensures s.threads[t].slot.value < |s.slots|
    ensures s.slots[s.threads[t].slot.value].pointer == Protects(s.threads[t].pc).value
  {
  }

  /** A scan goes on to slot `i + 1` only when slot `i` does not hold the node. */
  lemma ScansAdvance(s: State, s': State, t: Tid, a: Addr, i: nat)
    requires ScansOk(s) && SlotsOk(s) && OnlyThread(s, s', t) && i < |s.slots|
    requires Scanning(s.threads[t].pc) == Some((a, i)) && Scanning(s'.threads[t].pc) == Some((a, i + 1))
    requires s.slots[i].pointer != a && Protects(s'.threads[t].pc) == None
    ensures ScansOk(s')
  {
    hide SlotsOk, Protects, Scanning;
    forall x, y | 0 <= x < |s.threads| && 0 <= y < |s.threads| ensures NotPassed(s', x, y) {
      assert NotPassed(s, x, y);
      if y == t && x != t && s.threads[x].slot.Some? && Protects(s.threads[x].pc).Some? {
        SlotProtects(s, x);
      }
    }
  }

  lemma ScansPopScan(s: State, s': State, t: Tid, a: Addr, res: Value, i: nat)
    requires ScansOk(s) && SlotsOk(s) && DoPopScan(s, s', t, a, res, i)
    ensures ScansOk(s')
  {
    if s'.threads[t].pc.PopScan? {
      ScansAdvance(s, s', t, a, i);
    } else {
      ScansFrame(s, s', t);
    }
  }

  lemma ScansSweepScan(s: State, s': State, t: Tid, current: Addr, next: Addr, node: Addr, res: Value, i: nat)
    requires ScansOk(s) && SlotsOk(s) && DoSweepScan(s, s', t, current, next, node, res, i)
    ensures ScansOk(s')
  {
    if s'.threads[t].pc.SweepScan? {
      ScansAdvance(s, s', t, node, i);
    } else {
      ScansFrame(s, s', t);
    }
  }

  lemma ScansLook(s: State, s': State, t: Tid)
    requires NodesOk(s) && PendingOk(s) && ScansOk(s) && LookNext(s, s', t)
    ensures ScansOk(s')
  {
    match s.threads[t].pc
    case PopConfirm(a) => ScansPopConfirm(s, s', t, a);
    case _ =>
      LookSameScan(s, s', t);
      ScansFrame(s, s', t);
  }

  lemma ScansDispose(s: State, s': State, t: Tid)
    requires ScansOk(s) && SlotsOk(s) && DisposeNext(s, s', t)
    ensures ScansOk(s')
  {
    match s.threads[t].pc
    case PopScan(a, res, i) => ScansPopScan(s, s', t, a, res, i);
    case _ =>
      DisposeSameScan(s, s', t);
      ScansFrame(s, s', t);
  }

  lemma ScansRetire(s: State, s': State, t: Tid)
    requires ScansOk(s) && SlotsOk(s) && RetireNext(s, s', t)
    ensures ScansOk(s')
  {
    match s.threads[t].pc
    case SweepScan(current, next, node, res, i) => ScansSweepScan(s, s', t, current, next, node, res, i);
    case _ =>
      RetireSameScan(s, s', t);
      ScansFrame(s, s', t);
  }

  lemma ScansNext(s: State, s': State, t: Tid)
    requires NodesOk(s) && PendingOk(s) && ScansOk(s) && SlotsOk(s) && Next(s, s', t)
    ensures ScansOk(s')
  {
    if LookNext(s, s', t) {
      ScansLook(s, s', t);
    } else if DisposeNext(s, s', t) {
      ScansDispose(s, s', t);
    } else if RetireNext(s, s', t) {
      ScansRetire(s, s', t);
    } else {
      if PushNext(s, s', t) {
        PushSameScan(s, s', t);
      } else {
        SlotSameScan(s, s', t);
      }
      ScansFrame(s, s', t);
    }
  }

  lemma InvNext(s: State, s': State, t: Tid)
    requires Inv(s) && Next(s, s', t)
    ensures Inv(s')
  {
    SlotsNext(s, s', t);
    NodesNext(s, s', t);
    RetiredNext(s, s', t);
    ConfirmedNext(s, s', t);
    ScansNext(s, s', t);
  }
}

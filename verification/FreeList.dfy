/** The lock-free free list that recycles blocks, as an interleaving of atomic operations.

    Every thread is at a program point (`PC`); one step of one thread performs one atomic load,
    store, fetch_add or compare-and-swap of `add`, `try_get` or `add_knowing_refcount_is_zero`.
    Reference counts are 32-bit words whose top bit is the "should be on the free list" flag. */
module FreeList {
  import opened Wrappers
  import opened Sets

  type Node = nat
  type Thread = nat

  const REFS_MASK := 0x7FFF_FFFF
  const SHOULD_BE_ON_FREELIST := 0x8000_0000
  const WORD := 0x1_0000_0000

  /** Where a thread goes after add_knowing_refcount_is_zero: back to the caller of `add`, or round
      the loop of `try_get` with the head its failed compare-and-swap has just read. */
  datatype Cont = Return | Resume(seen: Option<Node>)

  /** A program point is named after the atomic operation that the thread performs next. */
  datatype PC =
    | Idle
    // add_knowing_refcount_is_zero(node)
    | LoadHeadToAdd(node: Node, k: Cont)
    | StoreNext(node: Node, seen: Option<Node>, k: Cont)
    | StoreRefs(node: Node, seen: Option<Node>, k: Cont)
    | SwingToAdd(node: Node, seen: Option<Node>, k: Cont)
    | BackOff(node: Node, seen: Option<Node>, k: Cont)
    // try_get
    | LoadHead
    | LoadRefs(node: Node)
    | Acquire(node: Node, refs: nat)
    | LoadNext(node: Node)
    | SwingToPop(node: Node, next: Option<Node>)
    | CheckFlag(node: Node)
    | Release(node: Node)
    | GiveBack(node: Node, seen: Option<Node>)

  /** Shared memory, the program points, and which thread may currently use which node: a thread
      owns a node from the moment `try_get` returns it until it calls `add`. */
  datatype State = State(
    head: Option<Node>,
    refs: map<Node, nat>,
    next: map<Node, Option<Node>>,
    pc: map<Thread, PC>,
    owned: set<(Thread, Node)>)

  /** What an idle thread decides to do: call the list, or let another thread use its node (a block is
      taken by the producer and returned by whichever consumer empties it). */
  datatype Call = Add(node: Node) | TryGet | HandOver(node: Node, to: Thread)

  ghost predicate WellFormed(s: State) {
    && s.refs.Keys == s.next.Keys
    && (forall n <- s.refs :: 0 <= s.refs[n] < WORD)
    && (s.head.Some? ==> s.head.value in s.refs)
    && (forall n <- s.next :: s.next[n].Some? ==> s.next[n].value in s.refs)
    && (forall t <- s.pc :: WellFormedPC(s.pc[t], s.refs.Keys))
    && (forall t, n :: (t, n) in s.owned ==> t in s.pc && n in s.refs)
  }

  ghost predicate InNodes(o: Option<Node>, nodes: set<Node>) {
    o.Some? ==> o.value in nodes
  }

  ghost predicate WellFormedPC(p: PC, nodes: set<Node>) {
    match p
    case Idle => true
    case LoadHead => true
    case LoadHeadToAdd(n, k) => n in nodes && WellFormedCont(k, nodes)
    case StoreNext(n, h, k) => n in nodes && InNodes(h, nodes) && WellFormedCont(k, nodes)
    case StoreRefs(n, h, k) => n in nodes && InNodes(h, nodes) && WellFormedCont(k, nodes)
    case SwingToAdd(n, h, k) => n in nodes && InNodes(h, nodes) && WellFormedCont(k, nodes)
    case BackOff(n, h, k) => n in nodes && InNodes(h, nodes) && WellFormedCont(k, nodes)
    case LoadRefs(n) => n in nodes
    case Acquire(n, _) => n in nodes
    case LoadNext(n) => n in nodes
    case SwingToPop(n, nx) => n in nodes && InNodes(nx, nodes)
    case CheckFlag(n) => n in nodes
    case Release(n) => n in nodes
    case GiveBack(n, h) => n in nodes && InNodes(h, nodes)
  }

  ghost predicate WellFormedCont(k: Cont, nodes: set<Node>) {
    k.Resume? ==> InNodes(k.seen, nodes)
  }

  /** The head of the loop in try_get: leave with nullptr, or look at the head just read. */
  ghost function LoopWith(seen: Option<Node>): PC {
    match seen
    case None => Idle
    case Some(n) => LoadRefs(n)
  }

  ghost function Continue(k: Cont): PC {
    match k
    case Return => Idle
    case Resume(seen) => LoopWith(seen)
  }

  ghost predicate Enabled(s: State, t: Thread, c: Call) {
    && WellFormed(s)
    && t in s.pc
    && (s.pc[t].Idle? && !c.TryGet? ==> (t, c.node) in s.owned)
    && (s.pc[t].Idle? && c.HandOver? ==> c.to in s.pc)
  }

  // ------------------------------------------------ the atomic operations, one function for each

  ghost predicate At(s: State, t: Thread) {
    WellFormed(s) && t in s.pc
  }

  /** add: freeListRefs.fetch_add(SHOULD_BE_ON_FREELIST) */
  ghost function DoAdd(s: State, t: Thread, n: Node): State
    requires At(s, t) && n in s.refs
  {
    s.(refs := s.refs[n := (s.refs[n] + SHOULD_BE_ON_FREELIST) % WORD],
       owned := s.owned - {(t, n)},
       pc := s.pc[t := if s.refs[n] == 0 then LoadHeadToAdd(n, Return) else Idle])
  }

  ghost function DoHandOver(s: State, t: Thread, n: Node, u: Thread): State {
    s.(owned := s.owned - {(t, n)} + {(u, n)})
  }

  ghost function DoLoadHeadToAdd(s: State, t: Thread): State
    requires At(s, t) && s.pc[t].LoadHeadToAdd?
  {
    s.(pc := s.pc[t := StoreNext(s.pc[t].node, s.head, s.pc[t].k)])
  }

  ghost function DoStoreNext(s: State, t: Thread): State
    requires At(s, t) && s.pc[t].StoreNext?
  {
    var StoreNext(n, h, k) := s.pc[t];
    s.(next := s.next[n := h], pc := s.pc[t := StoreRefs(n, h, k)])
  }

  ghost function DoStoreRefs(s: State, t: Thread): State
    requires At(s, t) && s.pc[t].StoreRefs?
  {
    var StoreRefs(n, h, k) := s.pc[t];
    s.(refs := s.refs[n := 1], pc := s.pc[t := SwingToAdd(n, h, k)])
  }

  ghost function DoSwingToAdd(s: State, t: Thread): State
    requires At(s, t) && s.pc[t].SwingToAdd?
  {
    var SwingToAdd(n, h, k) := s.pc[t];
    if s.head == h then s.(head := Some(n), pc := s.pc[t := Continue(k)])
    else s.(pc := s.pc[t := BackOff(n, s.head, k)])
  }

  /** freeListRefs.fetch_add(SHOULD_BE_ON_FREELIST - 1) */
  ghost function DoBackOff(s: State, t: Thread): State
    requires At(s, t) && s.pc[t].BackOff? && s.pc[t].node in s.refs
  {
    var BackOff(n, h, k) := s.pc[t];
    s.(refs := s.refs[n := (s.refs[n] + SHOULD_BE_ON_FREELIST - 1) % WORD],
       pc := s.pc[t := if s.refs[n] == 1 then StoreNext(n, h, k) else Continue(k)])
  }

  ghost function DoLoadHead(s: State, t: Thread): State {
    s.(pc := s.pc[t := LoopWith(s.head)])
  }

  ghost function DoLoadRefs(s: State, t: Thread): State
    requires At(s, t) && s.pc[t].LoadRefs? && s.pc[t].node in s.refs
  {
    s.(pc := s.pc[t := Acquire(s.pc[t].node, s.refs[s.pc[t].node])])
  }

  /** Give up on a node whose reference count was zero, or try to count one more reference. */
  ghost function DoAcquire(s: State, t: Thread): State
    requires At(s, t) && s.pc[t].Acquire? && s.pc[t].node in s.refs
  {
    var Acquire(n, r) := s.pc[t];
    if r % SHOULD_BE_ON_FREELIST == 0 then s.(pc := s.pc[t := LoopWith(s.head)])
    else if s.refs[n] == r then s.(refs := s.refs[n := (r + 1) % WORD], pc := s.pc[t := LoadNext(n)])
    else s.(pc := s.pc[t := LoadHead])
  }

  ghost function DoLoadNext(s: State, t: Thread): State
    requires At(s, t) && s.pc[t].LoadNext? && s.pc[t].node in s.refs
  {
    s.(pc := s.pc[t := SwingToPop(s.pc[t].node, s.next[s.pc[t].node])])
  }

  ghost function DoSwingToPop(s: State, t: Thread): State
    requires At(s, t) && s.pc[t].SwingToPop?
  {
    var SwingToPop(n, nx) := s.pc[t];
    if s.head == Some(n) then s.(head := nx, pc := s.pc[t := CheckFlag(n)])
    else s.(pc := s.pc[t := GiveBack(n, s.head)])
  }

  /** The load in the assertion that the node just unlinked is not flagged. */
  ghost function DoCheckFlag(s: State, t: Thread): State
    requires At(s, t) && s.pc[t].CheckFlag?
  {
    s.(pc := s.pc[t := Release(s.pc[t].node)])
  }

  /** freeListRefs.fetch_sub(2), after which the caller has the node */
  ghost function DoRelease(s: State, t: Thread): State
    requires At(s, t) && s.pc[t].Release? && s.pc[t].node in s.refs
  {
    var n := s.pc[t].node;
    s.(refs := s.refs[n := (s.refs[n] + WORD - 2) % WORD],
       owned := s.owned + {(t, n)},
       pc := s.pc[t := Idle])
  }

  /** freeListRefs.fetch_sub(1) */
  ghost function DoGiveBack(s: State, t: Thread): State
    requires At(s, t) && s.pc[t].GiveBack? && s.pc[t].node in s.refs
  {
    var GiveBack(n, h) := s.pc[t];
    s.(refs := s.refs[n := (s.refs[n] + WORD - 1) % WORD],
       pc := s.pc[t := if s.refs[n] == SHOULD_BE_ON_FREELIST + 1 then LoadHeadToAdd(n, Resume(h))
                       else LoopWith(h)])
  }

  /** One atomic operation of thread t. `c` matters only when t is idle. */
  ghost function Step(s: State, t: Thread, c: Call): State
    requires Enabled(s, t, c)
  {
    assert WellFormedPC(s.pc[t], s.refs.Keys);
    match s.pc[t]
    case Idle =>
      (match c
       case TryGet => s.(pc := s.pc[t := LoadHead])
       case HandOver(n, u) => DoHandOver(s, t, n, u)
       case Add(n) => DoAdd(s, t, n))
    case LoadHeadToAdd(_, _) => DoLoadHeadToAdd(s, t)
    case StoreNext(_, _, _) => DoStoreNext(s, t)
    case StoreRefs(_, _, _) => DoStoreRefs(s, t)
    case SwingToAdd(_, _, _) => DoSwingToAdd(s, t)
    case BackOff(_, _, _) => DoBackOff(s, t)
    case LoadHead => DoLoadHead(s, t)
    case LoadRefs(_) => DoLoadRefs(s, t)
    case Acquire(_, _) => DoAcquire(s, t)
    case LoadNext(_) => DoLoadNext(s, t)
    case SwingToPop(_, _) => DoSwingToPop(s, t)
    case CheckFlag(_) => DoCheckFlag(s, t)
    case Release(_) => DoRelease(s, t)
    case GiveBack(_, _) => DoGiveBack(s, t)
  }

  /** All nodes start out owned, each by one thread; the list is empty and every thread idle.
      There are fewer threads than the reference field can count. */
  ghost predicate Init(s: State) {
    && WellFormed(s)
    && s.head == None
    && |s.pc| < REFS_MASK
    && (forall t <- s.pc :: s.pc[t] == Idle)
    && (forall n <- s.refs :: s.refs[n] == 0 && exists t :: (t, n) in s.owned)
    && (forall t, u, n :: (t, n) in s.owned && (u, n) in s.owned ==> t == u)
  }

  /** Which thread moves, and what it does if it is idle. */
  datatype Move = Move(t: Thread, c: Call)

  ghost predicate IsStep(s: State, m: Move, s': State) {
    Enabled(s, m.t, m.c) && s' == Step(s, m.t, m.c)
  }

  ghost predicate IsRun(run: seq<State>, moves: seq<Move>) {
    && |run| == |moves| + 1
    && Init(run[0])
    && forall i :: 0 <= i < |moves| ==> IsStep(run[i], moves[i], run[i + 1])
  }

  // ---------------------------------------------------------------- the life cycle of a node

  /** Where a node is in its life. A node is in exactly one of these modes. */
  datatype Mode =
    | Held(t: Thread)     // some caller uses it
    | Pending             // to be added by whoever drops the last reference
    | Filling(t: Thread)  // t is adding it, reference count still zero
    | Trying(t: Thread)   // t is adding it, the list's own reference already counted
    | Listed              // reachable from the head
    | Popped(t: Thread)   // t has unlinked it and has not dropped its references yet

  /** Bookkeeping that the code does not keep: the mode of every node, and the list as a sequence. */
  datatype Ledger = Ledger(mode: map<Node, Mode>, list: seq<Node>)

  /** The counted references: program points between a successful Acquire and the matching fetch_sub. */
  ghost predicate RefersTo(p: PC, n: Node) {
    match p
    case LoadNext(m) => m == n
    case SwingToPop(m, _) => m == n
    case CheckFlag(m) => m == n
    case Release(m) => m == n
    case GiveBack(m, _) => m == n
    case _ => false
  }

  ghost function Referrers(pcs: map<Thread, PC>, n: Node): set<Thread> {
    set t | t in pcs && RefersTo(pcs[t], n)
  }

  ghost function Busy(p: PC, t: Thread): Option<(Node, Mode)> {
    match p
    case LoadHeadToAdd(n, _) => Some((n, Filling(t)))
    case StoreNext(n, _, _) => Some((n, Filling(t)))
    case StoreRefs(n, _, _) => Some((n, Filling(t)))
    case SwingToAdd(n, _, _) => Some((n, Trying(t)))
    case BackOff(n, _, _) => Some((n, Trying(t)))
    case CheckFlag(n) => Some((n, Popped(t)))
    case Release(n) => Some((n, Popped(t)))
    case _ => None
  }

  ghost function ListRef(m: Mode): nat {
    if m.Listed? || m.Trying? || m.Popped? then 1 else 0
  }

  ghost function FlagValue(m: Mode): nat {
    if m.Pending? || m.Filling? then SHOULD_BE_ON_FREELIST else 0
  }

  ghost predicate NodeInv(s: State, m: Mode, n: Node)
    requires n in s.refs
  {
    && s.refs[n] == |Referrers(s.pc, n)| + ListRef(m) + FlagValue(m)
    && (m.Pending? ==> |Referrers(s.pc, n)| > 0)
    && (m.Filling? ==> |Referrers(s.pc, n)| == 0)
    && (m.Filling? || m.Trying? || m.Popped? ==> m.t in s.pc && Busy(s.pc[m.t], m.t) == Some((n, m)))
    && (m.Held? ==> (m.t, n) in s.owned)
  }

  ghost predicate ThreadInv(s: State, mode: map<Node, Mode>, t: Thread)
    requires t in s.pc && WellFormed(s) && mode.Keys == s.refs.Keys
  {
    var p := s.pc[t];
    && (Busy(p, t).Some? ==> Busy(p, t).value.0 in mode && mode[Busy(p, t).value.0] == Busy(p, t).value.1)
    && (p.StoreRefs? || p.SwingToAdd? ==> s.next[p.node] == p.seen)
    && (p.SwingToPop? ==> s.next[p.node] == p.next)
  }

  ghost predicate ListInv(s: State, a: Ledger)
    requires WellFormed(s) && a.mode.Keys == s.refs.Keys
  {
    && s.head == (if a.list == [] then None else Some(a.list[0]))
    && (forall n :: n in a.list <==> n in a.mode && a.mode[n] == Listed)
    && (forall i, j :: 0 <= i < j < |a.list| ==> a.list[i] != a.list[j])
    && (forall i :: 0 <= i < |a.list| ==> LinkedAt(s, a.list, i))
  }

  ghost predicate LinkedAt(s: State, list: seq<Node>, i: nat)
    requires i < |list|
  {
    list[i] in s.next && s.next[list[i]] == if i + 1 < |list| then Some(list[i + 1]) else None
  }

  ghost predicate Inv(s: State, a: Ledger) {
    && WellFormed(s)
    && |s.pc| < REFS_MASK
    && a.mode.Keys == s.refs.Keys
    && (forall n <- s.refs :: NodeInv(s, a.mode[n], n))
    && (forall t <- s.pc :: ThreadInv(s, a.mode, t))
    && (forall t, n :: (t, n) in s.owned ==> a.mode[n] == Held(t))
    && ListInv(s, a)
  }

  // ---------------------------------------------------------------- every step keeps the invariant

  lemma ReferrersAfter(pcs: map<Thread, PC>, t: Thread, p: PC, n: Node)
    requires t in pcs
    ensures |Referrers(pcs[t := p], n)| ==
            |Referrers(pcs, n)| - (if RefersTo(pcs[t], n) then 1 else 0) + (if RefersTo(p, n) then 1 else 0)
  {
    var before, after := Referrers(pcs, n), Referrers(pcs[t := p], n);
    if RefersTo(p, n) {
      assert after == before + {t};
    } else {
      assert after == before - {t};
    }
  }

  lemma ReferrersBound(pcs: map<Thread, PC>, n: Node)
    ensures |Referrers(pcs, n)| <= |pcs|
  {
    SubsetSize(Referrers(pcs, n), pcs.Keys);
    assert |pcs.Keys| == |pcs|;
  }

  /** Between (s, a) and (s', a') only thread t moved, and only node n (if any) was touched. */
  ghost predicate Local(s: State, a: Ledger, s': State, a': Ledger, t: Thread, n: Option<Node>) {
    && t in s.pc && t in s'.pc
    && WellFormed(s) && WellFormed(s')
    && s'.pc == s.pc[t := s'.pc[t]]
    && s'.refs.Keys == s.refs.Keys == a.mode.Keys == a'.mode.Keys == s.next.Keys == s'.next.Keys
    && (forall m <- s.refs :: Some(m) != n ==> Same(s, a, s', a', t, m))
    && (Busy(s.pc[t], t).Some? ==> n == Some(Busy(s.pc[t], t).value.0))
  }

  ghost predicate Same(s: State, a: Ledger, s': State, a': Ledger, t: Thread, m: Node)
    requires t in s.pc && t in s'.pc && m in s.refs && WellFormed(s) && WellFormed(s')
    requires s'.refs.Keys == s.refs.Keys == a.mode.Keys == a'.mode.Keys
  {
    && s'.refs[m] == s.refs[m] && s'.next[m] == s.next[m] && a'.mode[m] == a.mode[m]
    && (RefersTo(s.pc[t], m) <==> RefersTo(s'.pc[t], m))
    && (forall u :: (u, m) in s'.owned <==> (u, m) in s.owned)
  }

  lemma UntouchedNode(s: State, a: Ledger, s': State, a': Ledger, t: Thread, n: Option<Node>, m: Node)
    requires Local(s, a, s', a', t, n) && m in s.refs && Some(m) != n
    requires NodeInv(s, a.mode[m], m)
    ensures NodeInv(s', a'.mode[m], m)
  {
    ReferrersAfter(s.pc, t, s'.pc[t], m);
    assert Same(s, a, s', a', t, m);
  }

  /** The touched node may change its successor only while nobody else refers to it, and its mode
      only if no other thread is in charge of it. */
  ghost predicate SafeTouch(s: State, a: Ledger, s': State, a': Ledger, t: Thread, n: Node)
    requires n in s.refs && WellFormed(s) && WellFormed(s') && s'.refs.Keys == s.refs.Keys == a.mode.Keys == a'.mode.Keys
  {
    && (s'.next[n] != s.next[n] ==> a.mode[n] == Filling(t) && Referrers(s.pc, n) == {})
    && (a'.mode[n] != a.mode[n] ==> InCharge(a.mode[n], t))
  }

  lemma UntouchedThread(s: State, a: Ledger, s': State, a': Ledger, t: Thread, n: Option<Node>, u: Thread)
    requires Local(s, a, s', a', t, n) && u in s.pc && u != t
    requires n.Some? ==> n.value in s.refs && SafeTouch(s, a, s', a', t, n.value)
    requires ThreadInv(s, a.mode, u)
    ensures ThreadInv(s', a'.mode, u)
  {
    var p := s.pc[u];
    assert s'.pc[u] == p;
    assert WellFormedPC(p, s.refs.Keys);
    match Busy(p, u)
    case Some(b) =>
      if Some(b.0) != n { assert Same(s, a, s', a', t, b.0); }
    case None =>
    if p.StoreRefs? || p.SwingToAdd? || p.SwingToPop? {
      if Some(p.node) != n {
        assert Same(s, a, s', a', t, p.node);
      } else if p.SwingToPop? {
        assert RefersTo(p, p.node);
        assert u in Referrers(s.pc, p.node);
      }
    }
  }

  lemma OthersKeep(s: State, a: Ledger, s': State, a': Ledger, t: Thread, n: Option<Node>)
    requires Inv(s, a) && Local(s, a, s', a', t, n)
    requires n.Some? ==> n.value in s.refs && SafeTouch(s, a, s', a', t, n.value)
    ensures forall m <- s'.refs :: Some(m) != n ==> NodeInv(s', a'.mode[m], m)
    ensures forall u <- s'.pc :: u != t ==> ThreadInv(s', a'.mode, u)
    ensures |s'.pc| < REFS_MASK
  {
    forall m | m in s'.refs && Some(m) != n ensures NodeInv(s', a'.mode[m], m) {
      UntouchedNode(s, a, s', a', t, n, m);
    }
    forall u | u in s'.pc && u != t ensures ThreadInv(s', a'.mode, u) {
      UntouchedThread(s, a, s', a', t, n, u);
    }
    assert s'.pc.Keys == s.pc.Keys;
  }

  lemma ListKeeps(s: State, a: Ledger, s': State, a': Ledger, t: Thread, n: Option<Node>)
    requires Local(s, a, s', a', t, n) && ListInv(s, a)
    requires a'.list == a.list && s'.head == s.head
    requires n.Some? && n.value in s.refs ==>
               && (a'.mode[n.value] == Listed <==> a.mode[n.value] == Listed)
               && (a.mode[n.value] == Listed ==> s'.next[n.value] == s.next[n.value])
    ensures ListInv(s', a')
  {
    hide WellFormed;
    forall m | m in s.refs
      ensures a'.mode[m] == Listed <==> a.mode[m] == Listed
      ensures a.mode[m] == Listed ==> s'.next[m] == s.next[m]
    {
      if Some(m) != n { assert Same(s, a, s', a', t, m); }
    }
    forall i | 0 <= i < |a'.list| ensures LinkedAt(s', a'.list, i) {
      assert LinkedAt(s, a.list, i);
      assert a.list[i] in a.list;
    }
  }

  /** What is left to check about a step that moved thread t and touched node n. */
  lemma Assemble(s: State, a: Ledger, s': State, a': Ledger, t: Thread, n: Option<Node>)
    requires Inv(s, a) && Local(s, a, s', a', t, n)
    requires n.Some? ==> n.value in s.refs && SafeTouch(s, a, s', a', t, n.value)
    requires n.Some? ==> NodeInv(s', a'.mode[n.value], n.value)
    requires n.Some? ==> forall u :: (u, n.value) in s'.owned ==> a'.mode[n.value] == Held(u)
    requires ThreadInv(s', a'.mode, t)
    requires ListInv(s', a')
    ensures Inv(s', a')
  {
    OthersKeep(s, a, s', a', t, n);
    forall u, m | (u, m) in s'.owned ensures a'.mode[m] == Held(u) {
      if Some(m) != n { assert Same(s, a, s', a', t, m); }
    }
  }

  /** The conditions under which a step that touches one node and moves one thread is `Local`. */
  ghost predicate OneNode(s: State, a: Ledger, s': State, a': Ledger, t: Thread, n: Node)
    requires At(s, t) && n in s.refs && a.mode.Keys == s.refs.Keys
  {
    && t in s'.pc && n in s'.refs && n in s'.next && n in a'.mode
    && s'.pc == s.pc[t := s'.pc[t]] && s'.refs == s.refs[n := s'.refs[n]] && s'.next == s.next[n := s'.next[n]]
    && a'.mode == a.mode[n := a'.mode[n]]
    && 0 <= s'.refs[n] < WORD && InNodes(s'.next[n], s.refs.Keys) && InNodes(s'.head, s.refs.Keys)
    && WellFormedPC(s'.pc[t], s.refs.Keys)
    && (forall u, m :: m != n ==> ((u, m) in s'.owned <==> (u, m) in s.owned))
    && (forall u :: (u, n) in s'.owned ==> u in s.pc)
    && (forall m :: m != n ==> (RefersTo(s.pc[t], m) <==> RefersTo(s'.pc[t], m)))
    && (Busy(s.pc[t], t).Some? ==> n == Busy(s.pc[t], t).value.0)
  }

  lemma OneNodeWellFormed(s: State, a: Ledger, s': State, a': Ledger, t: Thread, n: Node)
    requires At(s, t) && n in s.refs && a.mode.Keys == s.refs.Keys
    requires OneNode(s, a, s', a', t, n)
    ensures WellFormed(s')
  {
    hide RefersTo, Busy, WellFormedPC;
    assert s'.refs.Keys == s.refs.Keys && s'.next.Keys == s.next.Keys;
    forall u | u in s'.pc ensures WellFormedPC(s'.pc[u], s'.refs.Keys) {
      assert u != t ==> s'.pc[u] == s.pc[u];
    }
  }

  lemma OneNodeLocal(s: State, a: Ledger, s': State, a': Ledger, t: Thread, n: Node)
    requires At(s, t) && n in s.refs && a.mode.Keys == s.refs.Keys
    requires OneNode(s, a, s', a', t, n)
    ensures Local(s, a, s', a', t, Some(n))
  {
    OneNodeWellFormed(s, a, s', a', t, n);
    hide RefersTo, Busy, WellFormedPC, InNodes;
    assert s.refs.Keys == s.next.Keys;
    hide WellFormed;
    assert s'.refs.Keys == s.refs.Keys && s'.next.Keys == s.next.Keys;
    forall m | m in s.refs && m != n ensures Same(s, a, s', a', t, m) { }
  }

  /** What the invariant says about the moving thread and the node it is at. */
  lemma Here(s: State, a: Ledger, t: Thread, n: Node)
    requires Inv(s, a) && t in s.pc && n in s.refs
    ensures s.refs.Keys == s.next.Keys == a.mode.Keys
    ensures NodeInv(s, a.mode[n], n) && ThreadInv(s, a.mode, t) && ListInv(s, a)
    ensures |Referrers(s.pc, n)| < REFS_MASK
    ensures 0 <= s.refs[n] < WORD && InNodes(s.head, s.refs.Keys) && InNodes(s.next[n], s.refs.Keys)
    ensures forall u :: (u, n) in s.owned ==> u in s.pc && a.mode[n] == Held(u)
    ensures a.mode == a.mode[n := a.mode[n]] && s.refs == s.refs[n := s.refs[n]] && s.next == s.next[n := s.next[n]]
  {
    ReferrersBound(s.pc, n);
    hide NodeInv, ThreadInv, ListInv, WellFormedPC, Referrers;
  }

  /** A step at node n that leaves the list alone. */
  ghost predicate Quiet(s: State, a: Ledger, s': State, a': Ledger, t: Thread, n: Node)
    requires At(s, t) && n in s.refs && s.refs.Keys == s.next.Keys == a.mode.Keys
  {
    && OneNode(s, a, s', a', t, n)
    && a'.list == a.list && s'.head == s.head
    && (a'.mode[n] == Listed <==> a.mode[n] == Listed)
    && (s'.next[n] != s.next[n] ==> a.mode[n] == Filling(t) && Referrers(s.pc, n) == {})
    && (a'.mode[n] != a.mode[n] ==> InCharge(a.mode[n], t))
    && (forall u :: (u, n) in s'.owned ==> a'.mode[n] == Held(u))
  }

  /** No thread other than t is at work on a node in this mode. */
  ghost predicate InCharge(m: Mode, t: Thread) {
    m.Filling? || m.Trying? || m.Popped? ==> m.t == t
  }

  lemma KeepQuiet(s: State, a: Ledger, s': State, a': Ledger, t: Thread, n: Node)
    requires Inv(s, a) && At(s, t) && n in s.refs && s.refs.Keys == s.next.Keys == a.mode.Keys
    requires Quiet(s, a, s', a', t, n)
    requires NodeInv(s', a'.mode[n], n)
    requires WellFormed(s') && a'.mode.Keys == s'.refs.Keys ==> ThreadInv(s', a'.mode, t)
    ensures Inv(s', a')
  {
    OneNodeLocal(s, a, s', a', t, n);
    hide WellFormed, NodeInv, ThreadInv, Local, Same, OneNode, Busy, RefersTo, Referrers;
    ListKeeps(s, a, s', a', t, Some(n));
    Assemble(s, a, s', a', t, Some(n));
  }

  lemma KeepStoreNext(s: State, a: Ledger, t: Thread)
    requires Inv(s, a) && At(s, t) && s.pc[t].StoreNext? && WellFormedPC(s.pc[t], s.refs.Keys)
    ensures Inv(DoStoreNext(s, t), a)
  {
    hide WellFormed, ListInv, Inv, Referrers;
    var s', n := DoStoreNext(s, t), s.pc[t].node;
    Here(s, a, t, n);
    ReferrersAfter(s.pc, t, s'.pc[t], n);
    KeepQuiet(s, a, s', a, t, n);
  }

  lemma KeepLoadHeadToAdd(s: State, a: Ledger, t: Thread)
    requires Inv(s, a) && At(s, t) && s.pc[t].LoadHeadToAdd? && WellFormedPC(s.pc[t], s.refs.Keys)
    ensures Inv(DoLoadHeadToAdd(s, t), a)
  {
    hide WellFormed, ListInv, Inv, Referrers;
    var s', n := DoLoadHeadToAdd(s, t), s.pc[t].node;
    Here(s, a, t, n);
    ReferrersAfter(s.pc, t, s'.pc[t], n);
    KeepQuiet(s, a, s', a, t, n);
  }

  lemma KeepStoreRefs(s: State, a: Ledger, t: Thread)
    requires Inv(s, a) && At(s, t) && s.pc[t].StoreRefs? && WellFormedPC(s.pc[t], s.refs.Keys)
    ensures Inv(DoStoreRefs(s, t), a.(mode := a.mode[s.pc[t].node := Trying(t)]))
  {
    hide WellFormed, ListInv, Inv, Referrers;
    var s', n := DoStoreRefs(s, t), s.pc[t].node;
    Here(s, a, t, n);
    ReferrersAfter(s.pc, t, s'.pc[t], n);
    KeepQuiet(s, a, s', a.(mode := a.mode[s.pc[t].node := Trying(t)]), t, n);
  }

  lemma KeepBackOff(s: State, a: Ledger, t: Thread)
    requires Inv(s, a) && At(s, t) && s.pc[t].BackOff? && WellFormedPC(s.pc[t], s.refs.Keys)
    ensures Inv(DoBackOff(s, t), a.(mode := a.mode[s.pc[t].node := if s.refs[s.pc[t].node] == 1 then Filling(t) else Pending]))
  {
    hide WellFormed, ListInv, Inv, Referrers;
    var s', n := DoBackOff(s, t), s.pc[t].node;
    Here(s, a, t, n);
    ReferrersAfter(s.pc, t, s'.pc[t], n);
    KeepQuiet(s, a, s', a.(mode := a.mode[s.pc[t].node := if s.refs[s.pc[t].node] == 1 then Filling(t) else Pending]), t, n);
  }

  lemma KeepLoadRefs(s: State, a: Ledger, t: Thread)
    requires Inv(s, a) && At(s, t) && s.pc[t].LoadRefs? && WellFormedPC(s.pc[t], s.refs.Keys)
    ensures Inv(DoLoadRefs(s, t), a)
  {
    hide WellFormed, ListInv, Inv, Referrers;
    var s', n := DoLoadRefs(s, t), s.pc[t].node;
    Here(s, a, t, n);
    ReferrersAfter(s.pc, t, s'.pc[t], n);
    KeepQuiet(s, a, s', a, t, n);
  }

  lemma KeepAcquire(s: State, a: Ledger, t: Thread)
    requires Inv(s, a) && At(s, t) && s.pc[t].Acquire? && WellFormedPC(s.pc[t], s.refs.Keys)
    ensures Inv(DoAcquire(s, t), a)
  {
    hide WellFormed, ListInv, Inv, Referrers;
    var s', n := DoAcquire(s, t), s.pc[t].node;
    Here(s, a, t, n);
    ReferrersAfter(s.pc, t, s'.pc[t], n);
    KeepQuiet(s, a, s', a, t, n);
  }

  lemma KeepLoadNext(s: State, a: Ledger, t: Thread)
    requires Inv(s, a) && At(s, t) && s.pc[t].LoadNext? && WellFormedPC(s.pc[t], s.refs.Keys)
    ensures Inv(DoLoadNext(s, t), a)
  {
    hide WellFormed, ListInv, Inv, Referrers;
    var s', n := DoLoadNext(s, t), s.pc[t].node;
    Here(s, a, t, n);
    ReferrersAfter(s.pc, t, s'.pc[t], n);
    KeepQuiet(s, a, s', a, t, n);
  }

  lemma KeepCheckFlag(s: State, a: Ledger, t: Thread)
    requires Inv(s, a) && At(s, t) && s.pc[t].CheckFlag? && WellFormedPC(s.pc[t], s.refs.Keys)
    ensures Inv(DoCheckFlag(s, t), a)
  {
    hide WellFormed, ListInv, Inv, Referrers;
    var s', n := DoCheckFlag(s, t), s.pc[t].node;
    Here(s, a, t, n);
    ReferrersAfter(s.pc, t, s'.pc[t], n);
    KeepQuiet(s, a, s', a, t, n);
  }

  lemma KeepRelease(s: State, a: Ledger, t: Thread)
    requires Inv(s, a) && At(s, t) && s.pc[t].Release? && WellFormedPC(s.pc[t], s.refs.Keys)
    ensures Inv(DoRelease(s, t), a.(mode := a.mode[s.pc[t].node := Held(t)]))
  {
    hide WellFormed, ListInv, Inv, Referrers;
    var s', n := DoRelease(s, t), s.pc[t].node;
    Here(s, a, t, n);
    ReferrersAfter(s.pc, t, s'.pc[t], n);
    KeepQuiet(s, a, s', a.(mode := a.mode[s.pc[t].node := Held(t)]), t, n);
  }

  lemma KeepGiveBack(s: State, a: Ledger, t: Thread)
    requires Inv(s, a) && At(s, t) && s.pc[t].GiveBack? && WellFormedPC(s.pc[t], s.refs.Keys)
    ensures Inv(DoGiveBack(s, t), a.(mode := if s.refs[s.pc[t].node] == SHOULD_BE_ON_FREELIST + 1 then a.mode[s.pc[t].node := Filling(t)] else a.mode))
  {
    hide WellFormed, ListInv, Inv, Referrers;
    var s', n := DoGiveBack(s, t), s.pc[t].node;
    Here(s, a, t, n);
    ReferrersAfter(s.pc, t, s'.pc[t], n);
    KeepQuiet(s, a, s', a.(mode := if s.refs[s.pc[t].node] == SHOULD_BE_ON_FREELIST + 1 then a.mode[s.pc[t].node := Filling(t)] else a.mode), t, n);
  }

  /** The node is linked in, or somebody else moved the head first. */
  lemma KeepSwingToAdd(s: State, a: Ledger, t: Thread) returns (a': Ledger)
    requires Inv(s, a) && At(s, t) && s.pc[t].SwingToAdd? && WellFormedPC(s.pc[t], s.refs.Keys)
    ensures Inv(DoSwingToAdd(s, t), a')
  {
    hide WellFormed, Inv, Referrers;
    var s', n := DoSwingToAdd(s, t), s.pc[t].node;
    Here(s, a, t, n);
    ReferrersAfter(s.pc, t, s'.pc[t], n);
    if s.head == s.pc[t].seen {
      a' := Ledger(a.mode[n := Listed], [n] + a.list);
      OneNodeLocal(s, a, s', a', t, n);
      Pushed(s, a, s', a', n);
      Assemble(s, a, s', a', t, Some(n));
    } else {
      a' := a;
      KeepQuiet(s, a, s', a, t, n);
    }
  }

  lemma Pushed(s: State, a: Ledger, s': State, a': Ledger, n: Node)
    requires WellFormed(s) && a.mode.Keys == s.refs.Keys && ListInv(s, a) && n in s.refs && n in s.next && a.mode[n] != Listed
    requires a' == Ledger(a.mode[n := Listed], [n] + a.list)
    requires s'.head == Some(n) && s'.next == s.next && s'.refs == s.refs && s.next[n] == s.head
    requires WellFormed(s')
    ensures ListInv(s', a')
  {
    hide WellFormed;
    assert n !in a.list;
    forall i | 0 <= i < |a'.list| ensures LinkedAt(s', a'.list, i) {
      if i > 0 { assert LinkedAt(s, a.list, i - 1); }
      assert i + 1 < |a'.list| ==> a'.list[i + 1] == a.list[i];
    }
  }

  lemma Unlinked(s: State, a: Ledger, s': State, a': Ledger, t: Thread)
    requires WellFormed(s) && a.mode.Keys == s.refs.Keys && ListInv(s, a) && a.list != []
    requires a' == Ledger(a.mode[a.list[0] := Popped(t)], a.list[1..])
    requires s'.head == s.next[a.list[0]] && s'.next == s.next && s'.refs == s.refs
    requires WellFormed(s')
    ensures ListInv(s', a')
  {
    hide WellFormed;
    assert LinkedAt(s, a.list, 0);
    forall i | 0 <= i < |a'.list| ensures LinkedAt(s', a'.list, i) {
      assert LinkedAt(s, a.list, i + 1);
      assert a'.list[i] == a.list[i + 1];
      assert i + 1 < |a'.list| ==> a'.list[i + 1] == a.list[i + 2];
    }
  }

  /** The head is unlinked, or somebody else moved it first. */
  lemma KeepSwingToPop(s: State, a: Ledger, t: Thread) returns (a': Ledger)
    requires Inv(s, a) && At(s, t) && s.pc[t].SwingToPop? && WellFormedPC(s.pc[t], s.refs.Keys)
    ensures Inv(DoSwingToPop(s, t), a')
  {
    hide WellFormed, Inv, Referrers;
    var s', n := DoSwingToPop(s, t), s.pc[t].node;
    Here(s, a, t, n);
    ReferrersAfter(s.pc, t, s'.pc[t], n);
    if s.head == Some(n) {
      a' := Ledger(a.mode[n := Popped(t)], a.list[1..]);
      assert n in a.list;
      OneNodeLocal(s, a, s', a', t, n);
      Unlinked(s, a, s', a', t);
      Assemble(s, a, s', a', t, Some(n));
    } else {
      a' := a;
      KeepQuiet(s, a, s', a, t, n);
    }
  }

  lemma KeepAdd(s: State, a: Ledger, t: Thread, n: Node)
    requires Inv(s, a) && At(s, t) && s.pc[t].Idle? && (t, n) in s.owned && n in s.refs
    ensures Inv(DoAdd(s, t, n), a.(mode := a.mode[n := if s.refs[n] == 0 then Filling(t) else Pending]))
  {
    hide WellFormed, ListInv, Inv, Referrers;
    var s' := DoAdd(s, t, n);
    Here(s, a, t, n);
    ReferrersAfter(s.pc, t, s'.pc[t], n);
    KeepQuiet(s, a, s', a.(mode := a.mode[n := if s.refs[n] == 0 then Filling(t) else Pending]), t, n);
  }

  lemma KeepHandOver(s: State, a: Ledger, t: Thread, n: Node, u: Thread)
    requires Inv(s, a) && At(s, t) && s.pc[t].Idle? && (t, n) in s.owned && n in s.refs && u in s.pc
    ensures Inv(DoHandOver(s, t, n, u), a.(mode := a.mode[n := Held(u)]))
  {
    hide WellFormed, ListInv, Inv, Referrers;
    var s' := DoHandOver(s, t, n, u);
    Here(s, a, t, n);
    assert s.pc == s.pc[t := s.pc[t]];
    KeepQuiet(s, a, s', a.(mode := a.mode[n := Held(u)]), t, n);
  }

  /** Loading the head, or entering try_get, touches no node. */
  lemma KeepMove(s: State, a: Ledger, t: Thread, p: PC)
    requires Inv(s, a) && At(s, t) && (s.pc[t].Idle? || s.pc[t].LoadHead?)
    requires p == LoadHead || p == LoopWith(s.head)
    ensures Inv(s.(pc := s.pc[t := p]), a)
  {
    hide ListInv, Referrers, NodeInv, ThreadInv;
    var s' := s.(pc := s.pc[t := p]);
    assert ListInv(s, a) && ThreadInv(s, a.mode, t);
    assert Local(s, a, s', a, t, None);
    ListKeeps(s, a, s', a, t, None);
    LoopThread(s', a.mode, t);
    Assemble(s, a, s', a, t, None);
  }

  lemma LoopThread(s: State, mode: map<Node, Mode>, t: Thread)
    requires t in s.pc && WellFormed(s) && mode.Keys == s.refs.Keys
    requires s.pc[t].Idle? || s.pc[t].LoadHead? || s.pc[t].LoadRefs?
    ensures ThreadInv(s, mode, t)
  {
  }

  /** Every atomic operation of every thread keeps the invariant. */
  lemma StepKeepsInv(s: State, a: Ledger, t: Thread, c: Call) returns (a': Ledger)
    requires Inv(s, a) && Enabled(s, t, c)
    ensures Inv(Step(s, t, c), a')
  {
    hide Inv, DoAdd, DoHandOver, DoLoadHeadToAdd, DoStoreNext, DoStoreRefs, DoSwingToAdd, DoBackOff,
         DoLoadRefs, DoAcquire, DoLoadNext, DoSwingToPop, DoCheckFlag, DoRelease, DoGiveBack, LoopWith;
    assert WellFormedPC(s.pc[t], s.refs.Keys);
    var n := if s.pc[t].Idle? || s.pc[t].LoadHead? then 0 else s.pc[t].node;
    a' := a;
    match s.pc[t]
    case Idle =>
      match c {
        case TryGet => KeepMove(s, a, t, LoadHead);
        case HandOver(m, u) =>
          KeepHandOver(s, a, t, m, u);
          a' := a.(mode := a.mode[m := Held(u)]);
        case Add(m) =>
          KeepAdd(s, a, t, m);
          a' := a.(mode := a.mode[m := if s.refs[m] == 0 then Filling(t) else Pending]);
      }
    case LoadHeadToAdd(_, _) => KeepLoadHeadToAdd(s, a, t);
    case StoreNext(_, _, _) => KeepStoreNext(s, a, t);
    case StoreRefs(_, _, _) =>
      KeepStoreRefs(s, a, t);
      a' := a.(mode := a.mode[n := Trying(t)]);
    case SwingToAdd(_, _, _) => a' := KeepSwingToAdd(s, a, t);
    case BackOff(_, _, _) =>
      KeepBackOff(s, a, t);
      a' := a.(mode := a.mode[n := if s.refs[n] == 1 then Filling(t) else Pending]);
    case LoadHead => KeepMove(s, a, t, LoopWith(s.head));
    case LoadRefs(_) => KeepLoadRefs(s, a, t);
    case Acquire(_, _) => KeepAcquire(s, a, t);
    case LoadNext(_) => KeepLoadNext(s, a, t);
    case SwingToPop(_, _) => a' := KeepSwingToPop(s, a, t);
    case CheckFlag(_) => KeepCheckFlag(s, a, t);
    case Release(_) =>
      KeepRelease(s, a, t);
      a' := a.(mode := a.mode[n := Held(t)]);
    case GiveBack(_, _) =>
      KeepGiveBack(s, a, t);
      a' := a.(mode := if s.refs[n] == SHOULD_BE_ON_FREELIST + 1 then a.mode[n := Filling(t)] else a.mode);
  }

  lemma InitInv(s: State) returns (a: Ledger)
    requires Init(s)
    ensures Inv(s, a)
  {
    hide WellFormedPC, Referrers, NodeInv, ThreadInv, OwnerOf, WellFormed, ListInv, Init;
    a := Ledger(map n | n in s.refs :: Held(OwnerOf(s, n)), []);
    InitParts(s, a);
    forall n | n in s.refs ensures NodeInv(s, a.mode[n], n) {
      InitNode(s, n);
    }
  }

  lemma InitParts(s: State, a: Ledger)
    requires Init(s) && a.list == [] && a.mode.Keys == s.refs.Keys && forall n <- s.refs :: a.mode[n] == Held(OwnerOf(s, n))
    ensures WellFormed(s) && |s.pc| < REFS_MASK && ListInv(s, a)
    ensures forall t <- s.pc :: ThreadInv(s, a.mode, t)
    ensures forall t, n :: (t, n) in s.owned ==> n in s.refs && a.mode[n] == Held(t)
  {
    hide WellFormedPC, ThreadInv, OwnerOf;
    forall t | t in s.pc ensures ThreadInv(s, a.mode, t) {
      LoopThread(s, a.mode, t);
    }
    forall t, n | (t, n) in s.owned ensures n in s.refs && a.mode[n] == Held(t) {
      OwnedByOne(s, t, n);
    }
  }

  lemma OwnedByOne(s: State, t: Thread, n: Node)
    requires Init(s) && (t, n) in s.owned
    ensures n in s.refs && OwnerOf(s, n) == t
  {
  }

  lemma InitNode(s: State, n: Node)
    requires Init(s) && n in s.refs
    ensures NodeInv(s, Held(OwnerOf(s, n)), n)
  {
    assert Referrers(s.pc, n) == {};
  }

  ghost function OwnerOf(s: State, n: Node): (t: Thread)
    requires Init(s) && n in s.refs
    ensures (t, n) in s.owned
  {
    var t :| (t, n) in s.owned;
    t
  }

  lemma {:induction false} RunInv(run: seq<State>, moves: seq<Move>, i: nat) returns (a: Ledger)
    requires IsRun(run, moves) && i < |run|
    ensures Inv(run[i], a)
  {
    if i == 0 {
      a := InitInv(run[0]);
    } else {
      var b := RunInv(run, moves, i - 1);
      assert IsStep(run[i - 1], moves[i - 1], run[i]);
      a := StepKeepsInv(run[i - 1], b, moves[i - 1].t, moves[i - 1].c);
    }
  }

  lemma Instance(s: State, a: Ledger, t: Thread)
    requires Inv(s, a) && t in s.pc
    ensures WellFormed(s) && WellFormedPC(s.pc[t], s.refs.Keys)
  {
  }

  // ---------------------------------------------------------------- what users of the list rely on

  /** No two threads own the same node, and no thread is being handed a node that another owns. */
  lemma OwnershipIsExclusive(run: seq<State>, moves: seq<Move>, i: nat, t: Thread, u: Thread, n: Node)
    requires IsRun(run, moves) && i < |run| && t in run[i].pc
    requires (t, n) in run[i].owned || run[i].pc[t] == CheckFlag(n) || run[i].pc[t] == Release(n)
    requires (u, n) in run[i].owned
    ensures t == u && (t, n) in run[i].owned
  {
    hide IsRun, NodeInv, ListInv, Referrers;
    var a := RunInv(run, moves, i);
    assert ThreadInv(run[i], a.mode, t);
  }

  /** The node a thread is about to unlink: the compare-and-swap installs the node's current successor. */
  lemma PopInstallsCurrentNext(run: seq<State>, moves: seq<Move>, i: nat, t: Thread)
    requires IsRun(run, moves) && i < |run| && t in run[i].pc && run[i].pc[t].SwingToPop?
    ensures run[i].pc[t].node in run[i].next && run[i].pc[t].next == run[i].next[run[i].pc[t].node]
  {
    var a := RunInv(run, moves, i);
    assert ThreadInv(run[i], a.mode, t);
    assert WellFormedPC(run[i].pc[t], run[i].refs.Keys);
  }

  /** The assertion in try_get: a node that has just been unlinked is not flagged. */
  lemma UnlinkedNodeIsNotFlagged(run: seq<State>, moves: seq<Move>, i: nat, t: Thread)
    requires IsRun(run, moves) && i < |run| && t in run[i].pc && run[i].pc[t].CheckFlag?
    ensures run[i].pc[t].node in run[i].refs && run[i].refs[run[i].pc[t].node] < SHOULD_BE_ON_FREELIST
  {
    var s, n := run[i], run[i].pc[t].node;
    hide IsRun, ListInv, Inv;
    var a := RunInv(run, moves, i);
    Instance(s, a, t);
    Here(s, a, t, n);
  }

  /** `list` is exactly what a traversal from the head visits. */
  ghost predicate IsChain(s: State, list: seq<Node>) {
    && s.head == (if list == [] then None else Some(list[0]))
    && (forall i :: 0 <= i < |list| ==> LinkedAt(s, list, i))
  }

  /** Where a node can be, read off the memory and the program points alone. */
  datatype Place =
    | Owned(t: Thread)
    | OnList
    | BeingAdded(t: Thread)
    | BeingPopped(t: Thread)
    | Flagged                // to be added by whoever drops the last of the references that are out

  ghost predicate IsAt(s: State, list: seq<Node>, n: Node, place: Place) {
    match place
    case Owned(t) => (t, n) in s.owned
    case OnList => n in list
    case BeingAdded(t) => t in s.pc && Busy(s.pc[t], t).Some? && Busy(s.pc[t], t).value.0 == n && !Busy(s.pc[t], t).value.1.Popped?
    case BeingPopped(t) => t in s.pc && Busy(s.pc[t], t) == Some((n, Popped(t)))
    case Flagged => n in s.refs && s.refs[n] >= SHOULD_BE_ON_FREELIST && Referrers(s.pc, n) != {}
  }

  ghost function PlaceOf(m: Mode): Place {
    match m
    case Held(t) => Owned(t)
    case Pending => Flagged
    case Filling(t) => BeingAdded(t)
    case Trying(t) => BeingAdded(t)
    case Listed => OnList
    case Popped(t) => BeingPopped(t)
  }

  lemma AtItsPlace(s: State, a: Ledger, n: Node)
    requires Inv(s, a) && n in s.refs
    ensures IsAt(s, a.list, n, PlaceOf(a.mode[n]))
  {
    hide ThreadInv, LinkedAt;
    assert NodeInv(s, a.mode[n], n);
  }

  lemma AtNoOtherPlace(s: State, a: Ledger, n: Node, place: Place)
    requires Inv(s, a) && n in s.refs && IsAt(s, a.list, n, place)
    ensures place == PlaceOf(a.mode[n])
  {
    hide LinkedAt, Referrers, ThreadInv, NodeInv, WellFormed, Busy;
    match place
    case Owned(_) =>
    case OnList =>
    case BeingAdded(t) => BusyPlace(s, a, t);
    case BeingPopped(t) => BusyPlace(s, a, t);
    case Flagged => FlaggedPlace(s, a.mode[n], n);
  }

  lemma BusyPlace(s: State, a: Ledger, t: Thread)
    requires Inv(s, a) && t in s.pc && Busy(s.pc[t], t).Some?
    ensures var (n, m) := Busy(s.pc[t], t).value;
            n in a.mode && a.mode[n] == m && (m.Filling? || m.Trying? || m.Popped?) && m.t == t
  {
    hide LinkedAt, Referrers, NodeInv, WellFormed;
    assert ThreadInv(s, a.mode, t);
  }

  lemma FlaggedPlace(s: State, m: Mode, n: Node)
    requires |s.pc| < REFS_MASK && n in s.refs && NodeInv(s, m, n)
    requires s.refs[n] >= SHOULD_BE_ON_FREELIST && Referrers(s.pc, n) != {}
    ensures m.Pending?
  {
    hide Referrers;
    ReferrersAreThreads(s.pc, n);
  }

  lemma ReferrersAreThreads(pcs: map<Thread, PC>, n: Node)
    ensures |Referrers(pcs, n)| <= |pcs|
  {
    assert |pcs.Keys| == |pcs|;
    SubsetSize(Referrers(pcs, n), pcs.Keys);
  }

  /** At every moment of every run every node is in exactly one place: one thread owns it, or it is on the list,
      once, or one thread is adding it, or one thread is taking it off, or it is flagged and referenced. */
  lemma EveryNodeIsInOnePlace(run: seq<State>, moves: seq<Move>, i: nat) returns (list: seq<Node>)
    requires IsRun(run, moves) && i < |run|
    ensures IsChain(run[i], list) && forall j, k :: 0 <= j < k < |list| ==> list[j] != list[k]
    ensures forall n <- run[i].refs :: exists place :: IsAt(run[i], list, n, place)
    ensures forall n, p, q :: n in run[i].refs && IsAt(run[i], list, n, p) && IsAt(run[i], list, n, q) ==> p == q
  {
    hide IsRun, Inv, IsAt;
    var s := run[i];
    var a := RunInv(run, moves, i);
    list := a.list;
    ListIsChain(s, a);
    forall n | n in s.refs
      ensures exists place :: IsAt(s, list, n, place)
    {
      AtItsPlace(s, a, n);
    }
    forall n, p, q | n in s.refs && IsAt(s, list, n, p) && IsAt(s, list, n, q)
      ensures p == q
    {
      AtNoOtherPlace(s, a, n, p);
      AtNoOtherPlace(s, a, n, q);
    }
  }

  lemma ListIsChain(s: State, a: Ledger)
    requires Inv(s, a)
    ensures IsChain(s, a.list) && forall j, k :: 0 <= j < k < |a.list| ==> a.list[j] != a.list[k]
  {
    hide NodeInv, ThreadInv, WellFormed;
  }

  /** When no call is in progress, every node is either owned or reachable from the head, never both,
      and it is reachable at one place only: nothing is lost and nothing duplicated. */
  lemma NothingLostAtQuiescence(run: seq<State>, moves: seq<Move>, i: nat) returns (list: seq<Node>)
    requires IsRun(run, moves) && i < |run|
    requires forall t <- run[i].pc :: run[i].pc[t] == Idle
    ensures IsChain(run[i], list)
    ensures forall j, k :: 0 <= j < k < |list| ==> list[j] != list[k]
    ensures forall n <- run[i].refs :: n in list <==> !exists t :: (t, n) in run[i].owned
    ensures forall n <- run[i].refs :: run[i].refs[n] == if n in list then 1 else 0
  {
    var s := run[i];
    var a := RunInv(run, moves, i);
    list := a.list;
    forall n | n in s.refs
      ensures n in list <==> !exists t :: (t, n) in s.owned
      ensures s.refs[n] == if n in list then 1 else 0
    {
      assert NodeInv(s, a.mode[n], n);
      assert Referrers(s.pc, n) == {};
    }
    ListIsChain(s, a);
  }

  // ---------------------------------------------------------------- one call alone

  /** These states are one whole call of thread t while nobody else moves: t is idle before and after, and not
      in between. Every step is determined by the state before it. */
  ghost predicate IsWholeCall(states: seq<State>, t: Thread, c: Call) {
    && |states| >= 2
    && (forall k :: 0 <= k < |states| - 1 ==> IsStep(states[k], Move(t, c), states[k + 1]))
    && (forall k :: 0 <= k < |states| ==> t in states[k].pc)
    && (forall k :: 0 <= k < |states| ==> (states[k].pc[t] == Idle <==> k == 0 || k == |states| - 1))
  }

  lemma Goes(s: State, a: Ledger, t: Thread, c: Call) returns (s': State, a': Ledger)
    requires Inv(s, a) && t in s.pc && !c.HandOver? && (s.pc[t].Idle? && c.Add? ==> (t, c.node) in s.owned)
    ensures IsStep(s, Move(t, c), s') && Inv(s', a')
  {
    hide NodeInv, ThreadInv, ListInv, Step;
    s' := Step(s, t, c);
    a' := StepKeepsInv(s, a, t, c);
  }

  /** From the head to the node in hand: the loop of try_get without a rival. */
  lemma TakesHead(s: State, a: Ledger, t: Thread, n: Node) returns (states: seq<State>)
    requires Inv(s, a) && t in s.pc && s.pc[t] == Idle && s.head == Some(n) && n in s.refs && n in s.next && s.refs[n] == 1
    ensures |states| >= 2 && IsWholeCall(states, t, TryGet) && states[0] == s
    ensures states[|states| - 1] == s.(head := s.next[n], refs := s.refs[n := 0], owned := s.owned + {(t, n)})
  {
    hide Inv, WellFormed, IsStep;
    var s1, s2, s3, s4, a4 := Reserves(s, a, t, n);
    var s5, s6, s7, s8 := Unlinks(s4, a4, t, n);
    assert s8.refs == s.refs[n := 0] && s8.pc == s.pc;
    states := [s, s1, s2, s3, s4, s5, s6, s7, s8];
  }

  lemma Reserves(s: State, a: Ledger, t: Thread, n: Node) returns (s1: State, s2: State, s3: State, s4: State, a4: Ledger)
    requires Inv(s, a) && t in s.pc && s.pc[t] == Idle && s.head == Some(n) && n in s.refs && s.refs[n] == 1
    ensures IsStep(s, Move(t, TryGet), s1) && IsStep(s1, Move(t, TryGet), s2)
    ensures IsStep(s2, Move(t, TryGet), s3) && IsStep(s3, Move(t, TryGet), s4) && Inv(s4, a4)
    ensures forall x <- [s1, s2, s3] :: t in x.pc && x.pc[t] != Idle
    ensures s4 == s.(refs := s.refs[n := 2], pc := s.pc[t := LoadNext(n)])
  {
    hide Inv, WellFormed;
    var a1, a2, a3;
    s1, a1 := Goes(s, a, t, TryGet);
    s2, a2 := Goes(s1, a1, t, TryGet);
    s3, a3 := Goes(s2, a2, t, TryGet);
    s4, a4 := Goes(s3, a3, t, TryGet);
    assert s4.pc == s.pc[t := LoadNext(n)];
  }

  lemma Unlinks(s: State, a: Ledger, t: Thread, n: Node) returns (s1: State, s2: State, s3: State, s4: State)
    requires Inv(s, a) && t in s.pc && s.pc[t] == LoadNext(n) && s.head == Some(n) && n in s.refs && n in s.next && s.refs[n] == 2
    ensures IsStep(s, Move(t, TryGet), s1) && IsStep(s1, Move(t, TryGet), s2)
    ensures IsStep(s2, Move(t, TryGet), s3) && IsStep(s3, Move(t, TryGet), s4)
    ensures forall x <- [s1, s2, s3] :: t in x.pc && x.pc[t] != Idle
    ensures s4 == s.(head := s.next[n], refs := s.refs[n := 0], owned := s.owned + {(t, n)}, pc := s.pc[t := Idle])
  {
    hide Inv, WellFormed;
    var a1, a2, a3, a4;
    s1, a1 := Goes(s, a, t, TryGet);
    s2, a2 := Goes(s1, a1, t, TryGet);
    s3, a3 := Goes(s2, a2, t, TryGet);
    s4, a4 := Goes(s3, a3, t, TryGet);
    assert s4.pc == s.pc[t := Idle];
  }

  lemma FindsNothing(s: State, a: Ledger, t: Thread) returns (states: seq<State>)
    requires Inv(s, a) && t in s.pc && s.pc[t] == Idle && s.head == None
    ensures |states| >= 2 && IsWholeCall(states, t, TryGet) && states[0] == s && states[|states| - 1] == s
  {
    hide Inv, WellFormed;
    var s1, a1 := Goes(s, a, t, TryGet);
    var s2, a2 := Goes(s1, a1, t, TryGet);
    assert s2.pc == s.pc;
    states := [s, s1, s2];
  }

  lemma PutsHead(s: State, a: Ledger, t: Thread, n: Node) returns (states: seq<State>)
    requires Inv(s, a) && t in s.pc && s.pc[t] == Idle && (t, n) in s.owned && n in s.refs && n in s.next && s.refs[n] == 0
    ensures |states| >= 2 && IsWholeCall(states, t, Add(n)) && states[0] == s
    ensures states[|states| - 1] ==
            s.(head := Some(n), next := s.next[n := s.head], refs := s.refs[n := 1], owned := s.owned - {(t, n)})
  {
    hide Inv, WellFormed;
    var s1, a1 := Goes(s, a, t, Add(n));
    assert s1.pc[t] == LoadHeadToAdd(n, Return);
    var s2, a2 := Goes(s1, a1, t, Add(n));
    var s3, a3 := Goes(s2, a2, t, Add(n));
    assert s3.pc[t] == StoreRefs(n, s.head, Return) && s3.next == s.next[n := s.head];
    var s4, a4 := Goes(s3, a3, t, Add(n));
    var s5, a5 := Goes(s4, a4, t, Add(n));
    assert s5.refs == s.refs[n := 1] && s5.pc == s.pc;
    states := [s, s1, s2, s3, s4, s5];
  }

  /** When no call is in progress: what is on the list is counted once and owned by nobody, and what is owned is
      not counted and not on the list. */
  lemma AtRest(run: seq<State>, moves: seq<Move>, i: nat) returns (list: seq<Node>, a: Ledger)
    requires IsRun(run, moves) && i < |run| && forall u <- run[i].pc :: run[i].pc[u] == Idle
    ensures Inv(run[i], a) && IsChain(run[i], list)
    ensures forall n <- list :: n in run[i].refs && n in run[i].next && run[i].refs[n] == 1 && forall u :: (u, n) !in run[i].owned
    ensures forall t, n :: (t, n) in run[i].owned ==> n in run[i].refs && n in run[i].next && run[i].refs[n] == 0 && n !in list
  {
    hide IsRun, NodeInv, ThreadInv, WellFormedPC;
    list := NothingLostAtQuiescence(run, moves, i);
    a := RunInv(run, moves, i);
    forall n | n in list ensures n in run[i].refs && n in run[i].next {
      var k :| 0 <= k < |list| && list[k] == n;
      assert LinkedAt(run[i], list, k);
    }
  }

  /** With no other call in flight, try_get takes the first node of the list and leaves the rest; it comes back
      with nothing, and then without having changed anything, only if the list is empty. */
  lemma TryGetAlone(run: seq<State>, moves: seq<Move>, i: nat, t: Thread) returns (list: seq<Node>, states: seq<State>)
    requires IsRun(run, moves) && i < |run| && t in run[i].pc && forall u <- run[i].pc :: run[i].pc[u] == Idle
    ensures IsChain(run[i], list) && IsWholeCall(states, t, TryGet) && states[0] == run[i]
    ensures var s, s' := run[i], states[|states| - 1];
            if list == [] then s' == s
            else
              && IsChain(s', list[1..]) && s'.pc == s.pc && s'.next == s.next
              && (forall u :: (u, list[0]) !in s.owned) && s'.owned == s.owned + {(t, list[0])}
              && list[0] in s.refs && s'.refs == s.refs[list[0] := 0]
  {
    hide IsRun, Inv, IsWholeCall;
    var s := run[i];
    var a;
    list, a := AtRest(run, moves, i);
    if list == [] {
      states := FindsNothing(s, a, t);
    } else {
      assert LinkedAt(s, list, 0);
      states := TakesHead(s, a, t, list[0]);
      ChainRest(s, states[|states| - 1], list);
    }
  }

  lemma ChainRest(s: State, s': State, list: seq<Node>)
    requires IsChain(s, list) && list != [] && LinkedAt(s, list, 0) && s'.head == s.next[list[0]] && s'.next == s.next
    ensures IsChain(s', list[1..])
  {
    forall k | 0 <= k < |list| - 1 ensures LinkedAt(s', list[1..], k) {
      assert LinkedAt(s, list, k + 1);
    }
  }

  /** With no other call in flight, add puts the caller's node in front of the list and takes it from the caller. */
  lemma AddAlone(run: seq<State>, moves: seq<Move>, i: nat, t: Thread, n: Node) returns (list: seq<Node>, states: seq<State>)
    requires IsRun(run, moves) && i < |run| && t in run[i].pc && forall u <- run[i].pc :: run[i].pc[u] == Idle
    requires (t, n) in run[i].owned
    ensures IsChain(run[i], list) && n !in list && IsWholeCall(states, t, Add(n)) && states[0] == run[i]
    ensures var s, s' := run[i], states[|states| - 1];
            IsChain(s', [n] + list) && s'.pc == s.pc && s'.owned == s.owned - {(t, n)}
  {
    hide IsRun, Inv, IsWholeCall;
    var s := run[i];
    var a;
    list, a := AtRest(run, moves, i);
    states := PutsHead(s, a, t, n);
    ChainMore(s, states[|states| - 1], list, n);
  }

  lemma ChainMore(s: State, s': State, list: seq<Node>, n: Node)
    requires IsChain(s, list) && n !in list && n in s.next && s'.head == Some(n) && s'.next == s.next[n := s.head]
    ensures IsChain(s', [n] + list)
  {
    var more := [n] + list;
    forall k | 0 <= k < |more| ensures LinkedAt(s', more, k) {
      if k > 0 { assert LinkedAt(s, list, k - 1) && list[k - 1] in list; }
    }
  }

  // ---------------------------------------------------------------- coming back empty-handed

  ghost predicate InTryGet(p: PC) {
    match p
    case Idle => false
    case LoadHeadToAdd(_, k) => k.Resume?
    case StoreNext(_, _, k) => k.Resume?
    case StoreRefs(_, _, k) => k.Resume?
    case SwingToAdd(_, _, k) => k.Resume?
    case BackOff(_, _, k) => k.Resume?
    case _ => true
  }

  /** The thread has read a null head and only finishes with a node that it could not unlink. */
  ghost predicate SawNull(p: PC) {
    match p
    case GiveBack(_, seen) => seen == None
    case LoadHeadToAdd(_, k) => k == Resume(None)
    case StoreNext(_, _, k) => k == Resume(None)
    case StoreRefs(_, _, k) => k == Resume(None)
    case SwingToAdd(_, _, k) => k == Resume(None)
    case BackOff(_, _, k) => k == Resume(None)
    case _ => false
  }

  /** At moment j of the call of try_get that t is still in at moment i, t moved while the list was empty. */
  ghost predicate WasEmpty(run: seq<State>, moves: seq<Move>, t: Thread, j: nat, i: nat) {
    && j <= i < |run| && j < |moves| && moves[j].t == t && run[j].head == None
    && forall x :: j <= x <= i ==> t in run[x].pc && InTryGet(run[x].pc[t])
  }

  /** A step of t into a state where it has seen null, or out of try_get without a node. */
  lemma NullWasRead(s: State, t: Thread, c: Call)
    requires Enabled(s, t, c)
    ensures t in Step(s, t, c).pc
    ensures SawNull(Step(s, t, c).pc[t]) ==> InTryGet(s.pc[t]) && (s.head == None || SawNull(s.pc[t]))
    ensures Step(s, t, c).pc[t] == Idle && InTryGet(s.pc[t]) && !s.pc[t].Release? ==> s.head == None || SawNull(s.pc[t])
  {
    hide WellFormed;
  }

  lemma OthersStay(s: State, t: Thread, c: Call, u: Thread)
    requires Enabled(s, t, c) && u in s.pc && u != t
    ensures u in Step(s, t, c).pc && Step(s, t, c).pc[u] == s.pc[u]
  {
    hide WellFormed;
  }

  lemma {:induction false} SawNullWasEmpty(run: seq<State>, moves: seq<Move>, i: nat, t: Thread) returns (j: nat)
    requires IsRun(run, moves) && i < |run| && t in run[i].pc && SawNull(run[i].pc[t])
    ensures WasEmpty(run, moves, t, j, i)
  {
    hide Step, Enabled;
    NotAtFirst(run, moves, t);
    assert IsStep(run[i - 1], moves[i - 1], run[i]);
    var s, m := run[i - 1], moves[i - 1];
    ThreadsStay(s, m.t, m.c);
    if m.t == t {
      NullWasRead(s, t, m.c);
      if s.head == None {
        j := i - 1;
      } else {
        j := SawNullWasEmpty(run, moves, i - 1, t);
      }
    } else {
      OthersStay(s, m.t, m.c, t);
      j := SawNullWasEmpty(run, moves, i - 1, t);
    }
  }

  lemma NotAtFirst(run: seq<State>, moves: seq<Move>, t: Thread)
    requires IsRun(run, moves)
    ensures t in run[0].pc ==> run[0].pc[t] == Idle
  {
  }

  lemma ThreadsStay(s: State, t: Thread, c: Call)
    requires Enabled(s, t, c)
    ensures Step(s, t, c).pc.Keys == s.pc.Keys
  {
    hide WellFormed;
  }

  /** In every run, whatever the other threads do: try_get comes back without a node only if the head was null at
      some moment of that very call. */
  lemma EmptyHandedOnlyIfEmpty(run: seq<State>, moves: seq<Move>, i: nat, t: Thread) returns (j: nat)
    requires IsRun(run, moves) && i < |moves| && moves[i].t == t && t in run[i].pc && t in run[i + 1].pc
    requires InTryGet(run[i].pc[t]) && run[i + 1].pc[t] == Idle && run[i + 1].owned == run[i].owned
    ensures WasEmpty(run, moves, t, j, i)
  {
    hide Step, Enabled;
    assert IsStep(run[i], moves[i], run[i + 1]);
    NullWasRead(run[i], t, moves[i].c);
    var a := RunInv(run, moves, i);
    if run[i].pc[t].Release? { ReleaseOwns(run[i], a, t, moves[i].c); }
    if run[i].head == None {
      j := i;
    } else {
      j := SawNullWasEmpty(run, moves, i, t);
    }
  }

  lemma ReleaseOwns(s: State, a: Ledger, t: Thread, c: Call)
    requires Inv(s, a) && Enabled(s, t, c) && s.pc[t].Release?
    ensures Step(s, t, c).owned != s.owned
  {
    hide NodeInv, ListInv;
    assert ThreadInv(s, a.mode, t);
    assert (t, s.pc[t].node) in Step(s, t, c).owned;
  }
}

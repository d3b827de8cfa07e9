/**
The lock-free queue (src/exe/lf/lock_free_queue.hpp) as a labelled transition
system.  Any number of threads run `Push` and `TryPop`; every atomic load,
store, compare-exchange and fetch_add is one step of one thread, and the weak
compare-exchange may fail spuriously.  Stamps and `try_del_count` are naturals,
which stands for the side condition that no 16-bit stamp wraps between a load
and the compare-exchange that relies on it.
*/
module LockFreeQueue {

  type Ptr = nat                 // 0 is nullptr
  type Tid = nat
  type Value = int               // payloads are never inspected

  datatype Option<+X> = None | Some(value: X)

  /** StampedPtr: raw pointer and stamp, compared together. */
  datatype Stamped = Stamped(ptr: Ptr, stamp: nat)

  datatype Node = Node(value: Option<Value>, next: Stamped, delCount: nat)

  /** Program counters, each with the stamped words that are live there. */
  datatype Pc =
    | Idle
      // NewNode, with LockFreePool::TryPop inlined
    | NewTop
    | NewNext(ct: Stamped)
    | NewCas(ct: Stamped, nx: Stamped)
    | NewAlloc
    | NewValue
    | NewLoad
    | NewStore(st: nat)
      // Push
    | PushTail
    | PushNext(ot: Stamped)
    | PushCheck(ot: Stamped, on: Stamped)
    | PushLink(ot: Stamped, on: Stamped)
    | PushHelp(ot: Stamped, on: Stamped)
    | PushSwing(ot: Stamped, linked: Ptr)
    | PushDone
      // TryPop; `empty` is history: was the queue empty at the load of `next`?
    | PopHead
    | PopNext(ho: Stamped)
    | PopTail(ho: Stamped, hn: Stamped, empty: bool)
    | PopCheck(ho: Stamped, hn: Stamped, to: Stamped, empty: bool)
    | PopCas(ho: Stamped, hn: Stamped)
    | PopHelp(to: Stamped, hn: Stamped)
    | PopUnlink
    | PopValue
    | PopDrop
    | PopDone
      // LockFreePool::Push
    | PutTop
    | PutLoad(ot: Stamped)
    | PutStore(ot: Stamped, st: nat)
    | PutCas(ot: Stamped, st: nat)

  /** The other locals of the two operations. */
  datatype Local = Local(
    pc: Pc,
    own: Ptr,                    // new_node, or the node on its way to the pool
    take: Ptr,                   // head_next, from the head CAS until its count
    drop: Ptr,                   // head_old, from the head CAS until its count
    val: Value,                  // the value pushed; history in TryPop: the value dequeued
    ret: Option<Value>)          // what TryPop returns

  /**
   Where a node is in its life (history).  `taker` is the thread that still has
   to move the value out and count it, `unlinker` the thread that still has to
   count the unlinking.
   */
  datatype Role =
    | Chained(pos: nat, taker: Option<Tid>)
    | Retired(taker: Option<Tid>, unlinker: Option<Tid>)
    | Pooled(idx: nat)
    | Owned(t: Tid)

  /** Shared memory, and history about it. */
  datatype Mem = Mem(
    nodes: map<Ptr, Node>,
    head: Stamped,
    tail: Stamped,
    top: Stamped,
    // history variables; no step below is guarded by them
    order: seq<Ptr>,             // every node ever linked, in link order
    enq: seq<Value>,             // the value of order[i + 1]
    hpos: nat,                   // head is order[hpos]
    tpos: nat,                   // tail is order[tpos]
    pool: seq<Ptr>,              // the free list, top last
    role: map<Ptr, Role>,
    lives: map<Ptr, nat>)        // completed lives of each node

  datatype State = State(m: Mem, threads: map<Tid, Local>)

  /** The constructor: one dummy node whose value counts as already taken. */
  ghost predicate Init(s: State)
  {
    && (forall t :: t in s.threads ==> s.threads[t] == Rest())
    && exists d: Ptr :: d != 0 && s.m == InitMem(d)
  }

  function Rest(): Local
  {
    Local(Idle, 0, 0, 0, 0, None)
  }

  function InitMem(d: Ptr): Mem
  {
    Mem(map[d := Node(None, Stamped(0, 0), 1)], Stamped(d, 0), Stamped(d, 0), Stamped(0, 0),
        [d], [], 0, 0, [], map[d := Chained(0, None)], map[d := 0])
  }

  // Total look-ups of history, so that no step is ever blocked by it.

  function RoleOf(m: Mem, n: Ptr): Role
  {
    if n in m.role then m.role[n] else Retired(None, None)
  }

  function LivesOf(m: Mem, n: Ptr): nat
  {
    if n in m.lives then m.lives[n] else 0
  }

  function TakerOf(r: Role): Option<Tid>
  {
    if r.Chained? || r.Retired? then r.taker else None
  }

  function WithTaker(r: Role, t: Option<Tid>): Role
  {
    match r
    case Chained(p, _) => Chained(p, t)
    case Retired(_, u) => Retired(t, u)
    case _ => r
  }

  function DropLast(p: seq<Ptr>): seq<Ptr>
  {
    if |p| > 0 then p[..|p| - 1] else []
  }

  function FirstOf(enq: seq<Value>, from: nat): Value
  {
    if from < |enq| then enq[from] else 0
  }

  function SetNode(m: Mem, n: Ptr, node: Node): Mem
  {
    m.(nodes := m.nodes[n := node])
  }

  // ---- steps that only read shared memory ---------------------------------

  /** Where a read, or a compare-exchange that fails, leads. */
  ghost predicate Read(m: Mem, l: Local, pc': Pc)
  {
    match l.pc
    case NewTop => pc' == if m.top.ptr == 0 then NewAlloc else NewNext(m.top)
    case NewNext(ct) => ct.ptr in m.nodes && pc' == NewCas(ct, m.nodes[ct.ptr].next)
    case NewCas(_, _) => pc' == NewTop
    case NewLoad => l.own in m.nodes && pc' == NewStore(m.nodes[l.own].next.stamp)
    case PushTail => pc' == PushNext(m.tail)
    case PushNext(ot) => ot.ptr in m.nodes && pc' == PushCheck(ot, m.nodes[ot.ptr].next)
    case PushCheck(ot, on) =>
      pc' == if ot != m.tail then PushTail else if on.ptr == 0 then PushLink(ot, on) else PushHelp(ot, on)
    case PushLink(_, _) => pc' == PushTail
    case PushHelp(_, _) => pc' == PushTail
    case PushSwing(_, _) => pc' == PushDone
    case PopHead => pc' == PopNext(m.head)
    case PopNext(ho) => ho.ptr in m.nodes && pc' == PopTail(ho, m.nodes[ho.ptr].next, m.hpos == |m.enq|)
    case PopTail(ho, hn, e) => pc' == PopCheck(ho, hn, m.tail, e)
    case PopCheck(ho, hn, to, e) =>
      pc' == if m.head != ho then PopHead
             else if hn.ptr == 0 then (if ho.ptr != to.ptr then PopHead else PopDone)
             else if ho.ptr != to.ptr then PopCas(ho, hn)
             else PopHelp(to, hn)
    case PopCas(_, _) => pc' == PopHead
    case PopHelp(_, _) => pc' == PopHead
    case PutTop => pc' == PutLoad(m.top)
    case PutLoad(ot) => l.own in m.nodes && pc' == PutStore(ot, m.nodes[l.own].next.stamp)
    case PutCas(ot, st) => pc' == PutStore(m.top, st)              // `expected` was reloaded
    case _ => false
  }

  /** Calling Push or TryPop, and returning from it. */
  ghost predicate CallReturn(l: Local, l': Local)
  {
    || (l.pc == Idle && l'.pc == NewTop && l' == Rest().(pc := NewTop, val := l'.val))
    || (l.pc == Idle && l' == Rest().(pc := PopHead))
    || ((l.pc == PushDone || l.pc == PopDone) && l' == Rest())
  }

  // ---- successful compare-exchanges on the pool ------------------------------

  ghost predicate PoolPop(m: Mem, t: Tid, l: Local, m': Mem, l': Local)
  {
    && l.pc.NewCas? && m.top == l.pc.ct
    && l' == l.(pc := NewValue, own := l.pc.ct.ptr)
    && m' == m.(top := Stamped(l.pc.nx.ptr, l.pc.ct.stamp + 1),
                pool := DropLast(m.pool),
                role := m.role[l.pc.ct.ptr := Owned(t)])
  }

  ghost predicate PoolPush(m: Mem, l: Local, m': Mem, l': Local)
  {
    && l.pc.PutCas? && m.top == l.pc.ot
    && l' == l.(pc := if l.take != 0 then PopValue else PopDone, own := 0)
    && m' == m.(top := Stamped(l.own, l.pc.ot.stamp + 1),
                pool := m.pool + [l.own],
                role := m.role[l.own := Pooled(|m.pool|)])
  }

  // ---- writes to a node of one's own -----------------------------------------

  ghost predicate OwnWrite(m: Mem, l: Local, m': Mem, l': Local)
  {
    l.own in m.nodes &&
    var node := m.nodes[l.own];
    match l.pc
    case NewValue => l' == l.(pc := NewLoad) && m' == SetNode(m, l.own, node.(value := Some(l.val)))
    case NewStore(st) => l' == l.(pc := PushTail) && m' == SetNode(m, l.own, node.(next := Stamped(0, st + 1)))
    case PutStore(ot, st) =>
      l' == l.(pc := PutCas(ot, st)) && m' == SetNode(m, l.own, node.(next := Stamped(ot.ptr, st + 1)))
    case _ => false
  }

  /** `new Node(value)` when the pool was empty. */
  ghost predicate Alloc(m: Mem, t: Tid, l: Local, m': Mem, l': Local)
  {
    && l.pc == NewAlloc
    && l'.own != 0 && l'.own !in m.nodes
    && l' == l.(pc := PushTail, own := l'.own)
    && m' == SetNode(m, l'.own, Node(Some(l.val), Stamped(0, 0), 0)).(
                role := m.role[l'.own := Owned(t)],
                lives := m.lives[l'.own := 0])
  }

  // ---- linking, swinging, unlinking ---------------------------------------------

  /** Push: old_tail->next.CompareExchangeWeak succeeds.  Linearization point. */
  ghost predicate Link(m: Mem, l: Local, m': Mem, l': Local)
  {
    && l.pc.PushLink? && l.pc.ot.ptr in m.nodes && m.nodes[l.pc.ot.ptr].next == l.pc.on
    && l' == l.(pc := PushSwing(l.pc.ot, l.own), own := 0)
    && m' == SetNode(m, l.pc.ot.ptr, m.nodes[l.pc.ot.ptr].(next := Stamped(l.own, l.pc.on.stamp + 1))).(
                order := m.order + [l.own],
                enq := m.enq + [l.val],
                role := m.role[l.own := Chained(|m.order|, None)])
  }

  /** One of the three compare-exchanges on tail_ succeeds. */
  ghost predicate Swing(m: Mem, l: Local, m': Mem, l': Local)
  {
    match l.pc
    case PushHelp(ot, on) => m.tail == ot && l' == l.(pc := PushTail) && m' == SetTail(m, on.ptr)
    case PushSwing(ot, n) => m.tail == ot && l' == l.(pc := PushDone) && m' == SetTail(m, n)
    case PopHelp(to, hn) => m.tail == to && l' == l.(pc := PopHead) && m' == SetTail(m, hn.ptr)
    case _ => false
  }

  function SetTail(m: Mem, n: Ptr): Mem
  {
    m.(tail := Stamped(n, m.tail.stamp + 1), tpos := m.tpos + 1)
  }

  /** TryPop: head_.CompareExchangeWeak succeeds.  Linearization point. */
  ghost predicate Unlink(m: Mem, t: Tid, l: Local, m': Mem, l': Local)
  {
    && l.pc.PopCas? && m.head == l.pc.ho
    && l' == l.(pc := PopUnlink, drop := l.pc.ho.ptr, take := l.pc.hn.ptr, val := FirstOf(m.enq, m.hpos))
    && m' == m.(head := Stamped(l.pc.hn.ptr, l.pc.ho.stamp + 1),
                hpos := m.hpos + 1,
                role := m.role[l.pc.ho.ptr := Retired(TakerOf(RoleOf(m, l.pc.ho.ptr)), Some(t))]
                              [l.pc.hn.ptr := WithTaker(RoleOf(m, l.pc.hn.ptr), Some(t))])
  }

  // ---- the value and the two counts -----------------------------------------------

  /** fetch_add on try_del_count of n; an odd old count hands the node to the thread. */
  function Count(m: Mem, n: Ptr, t: Tid, rest: Role): Mem
    requires n in m.nodes
  {
    var node := m.nodes[n];
    var odd := node.delCount % 2 == 1;
    SetNode(m, n, node.(delCount := node.delCount + 1)).(
      role := m.role[n := if odd then Owned(t) else rest],
      lives := m.lives[n := LivesOf(m, n) + if odd then 1 else 0])
  }

  ghost predicate CountUnlink(m: Mem, t: Tid, l: Local, m': Mem, l': Local)
  {
    && l.pc == PopUnlink && l.drop in m.nodes
    && l' == (if m.nodes[l.drop].delCount % 2 == 1 then l.(pc := PutTop, own := l.drop, drop := 0)
              else l.(pc := PopValue, drop := 0))
    && m' == Count(m, l.drop, t, Retired(TakerOf(RoleOf(m, l.drop)), None))
  }

  /** std::move(head_next->value). */
  ghost predicate TakeValue(m: Mem, l: Local, m': Mem, l': Local)
  {
    && l.pc == PopValue && l.take in m.nodes
    && l' == l.(pc := PopDrop, ret := m.nodes[l.take].value)
    && m' == SetNode(m, l.take, m.nodes[l.take].(value := None))
  }

  ghost predicate CountTake(m: Mem, t: Tid, l: Local, m': Mem, l': Local)
  {
    && l.pc == PopDrop && l.take in m.nodes
    && l' == (if m.nodes[l.take].delCount % 2 == 1 then l.(pc := PutTop, own := l.take, take := 0)
              else l.(pc := PopDone, take := 0))
    && m' == Count(m, l.take, t, WithTaker(RoleOf(m, l.take), None))
  }

  // ---- the transition system -------------------------------------------------------

  ghost predicate Action(m: Mem, t: Tid, l: Local, m': Mem, l': Local)
  {
    || (m' == m && l' == l.(pc := l'.pc) && Read(m, l, l'.pc))
    || (m' == m && CallReturn(l, l'))
    || PoolPop(m, t, l, m', l') || PoolPush(m, l, m', l')
    || OwnWrite(m, l, m', l') || Alloc(m, t, l, m', l')
    || Link(m, l, m', l') || Swing(m, l, m', l') || Unlink(m, t, l, m', l')
    || CountUnlink(m, t, l, m', l') || TakeValue(m, l, m', l') || CountTake(m, t, l, m', l')
  }

  ghost predicate ThreadStep(s: State, t: Tid, s': State)
  {
    && t in s.threads && t in s'.threads
    && s'.threads == s.threads[t := s'.threads[t]]
    && Action(s.m, t, s.threads[t], s'.m, s'.threads[t])
  }

  ghost predicate Next(s: State, s': State)
  {
    exists t :: ThreadStep(s, t, s')
  }

  ghost predicate IsRun(run: seq<State>)
  {
    && |run| > 0 && Init(run[0])
    && forall i :: 0 < i < |run| ==> Next(run[i - 1], run[i])
  }
}

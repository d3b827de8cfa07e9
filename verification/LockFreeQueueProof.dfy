/**
What every step of the lock-free queue keeps, and what follows for whole runs.
*/
module LockFreeQueueProof {
  import opened LockFreeQueue

  // ---- the inductive invariant -------------------------------------------

  /** A value read earlier from a stamped word: older, or still current. */
  predicate Seen(old_: Stamped, now: Stamped)
  {
    old_.stamp <= now.stamp && (old_.stamp == now.stamp ==> old_ == now)
  }

  /** p is the last node, and the tail points at it. */
  predicate Last(m: Mem, p: Ptr)
  {
    |m.order| == m.tpos + 1 && p == m.order[m.tpos]
  }

  /** A null `next` seen at the tail: nobody can restore that word, so while it is there the node is last. */
  predicate LinkFact(m: Mem, p: Ptr, on: Stamped)
  {
    p in m.nodes &&
    var now := m.nodes[p].next;
    if on.ptr == 0 then on.stamp <= now.stamp && (on.stamp == now.stamp ==> Last(m, p))
    else now == on
  }

  /** The thread's own node carries the value it pushes. */
  predicate Filled(m: Mem, n: Ptr, v: Value)
  {
    n in m.nodes && m.nodes[n].value == Some(v)
  }

  /** The value of the node has been taken. */
  predicate Emptied(m: Mem, n: Ptr)
  {
    n in m.nodes && m.nodes[n].value == None
  }

  predicate Linkable(m: Mem, n: Ptr, v: Value)
  {
    Filled(m, n, v) && m.nodes[n].next.ptr == 0
  }

  // What a thread may rely on between two of its steps.

  predicate SnapTake(m: Mem, l: Local)
  {
    && (l.take != 0 && l.pc != PopDrop ==> Filled(m, l.take, l.val))
    && (l.pc == PopDrop ==> l.ret == Some(l.val) && Emptied(m, l.take))
  }

  predicate SnapNew(m: Mem, l: Local)
  {
    match l.pc
    case NewNext(ct) => ct.ptr in m.nodes && Seen(ct, m.top)
    case NewCas(ct, nx) => ct.ptr in m.nodes && Seen(ct, m.top) && (m.top == ct ==> m.nodes[ct.ptr].next == nx)
    case NewValue => l.own in m.nodes
    case NewLoad => Filled(m, l.own, l.val)
    case NewStore(st) => Filled(m, l.own, l.val) && m.nodes[l.own].next.stamp == st
    case _ => true
  }

  predicate SnapPush(m: Mem, l: Local)
  {
    match l.pc
    case PushTail => Linkable(m, l.own, l.val)
    case PushNext(ot) => Linkable(m, l.own, l.val) && ot.ptr in m.nodes && Seen(ot, m.tail)
    case PushCheck(ot, on) =>
      Linkable(m, l.own, l.val) && ot.ptr in m.nodes && Seen(ot, m.tail) && (m.tail == ot ==> LinkFact(m, ot.ptr, on))
    case PushLink(ot, on) =>
      Linkable(m, l.own, l.val) && Seen(ot, m.tail) && on.ptr == 0 && LinkFact(m, ot.ptr, on)
    case PushHelp(ot, on) => Linkable(m, l.own, l.val) && SwingFact(m, ot, on.ptr)
    case PushSwing(ot, n) => SwingFact(m, ot, n)
    case _ => true
  }

  predicate SnapPop(m: Mem, l: Local)
  {
    match l.pc
    case PopNext(ho) => ho.ptr in m.nodes && Seen(ho, m.head)
    case PopTail(ho, hn, e) => HeadFact(m, ho, hn, e)
    case PopCheck(ho, hn, to, e) =>
      HeadFact(m, ho, hn, e) && to.ptr in m.nodes && Seen(to, m.tail)
      && (m.head == ho && ho.ptr != to.ptr ==> m.hpos < m.tpos)
    case PopCas(ho, hn) => HeadFact(m, ho, hn, false) && hn.ptr != 0 && (m.head == ho ==> m.hpos < m.tpos)
    case PopHelp(to, hn) => SwingFact(m, to, hn.ptr)
    case _ => true
  }

  predicate SnapPut(m: Mem, l: Local)
  {
    match l.pc
    case PutTop => Emptied(m, l.own)
    case PutLoad(ot) => Emptied(m, l.own) && Seen(ot, m.top)
    case PutStore(ot, st) => Seen(ot, m.top) && Emptied(m, l.own) && st <= m.nodes[l.own].next.stamp <= st + 1
    case PutCas(ot, st) => Seen(ot, m.top) && Emptied(m, l.own) && m.nodes[l.own].next == Stamped(ot.ptr, st + 1)
    case _ => true
  }

  predicate Snapshot(m: Mem, l: Local)
  {
    SnapTake(m, l) && SnapNew(m, l) && SnapPush(m, l) && SnapPop(m, l) && SnapPut(m, l)
  }

  /** While tail_ has not moved, its node's successor is n. */
  predicate SwingFact(m: Mem, ot: Stamped, n: Ptr)
  {
    && n != 0 && ot.ptr in m.nodes && Seen(ot, m.tail)
    && (m.tail == ot ==> m.nodes[ot.ptr].next.ptr == n)
  }

  /** While head_ has not moved, `next` is what was read, and a null means the queue was empty then. */
  predicate HeadFact(m: Mem, ho: Stamped, hn: Stamped, empty: bool)
  {
    && ho.ptr in m.nodes && Seen(ho, m.head)
    && (m.head == ho ==> if hn.ptr == 0 then empty else m.nodes[ho.ptr].next == hn)
  }

  predicate Keys(m: Mem)
  {
    m.role.Keys == m.nodes.Keys && m.lives.Keys == m.nodes.Keys && 0 !in m.nodes
  }

  predicate Chain(m: Mem)
    requires Keys(m)
  {
    && m.hpos <= m.tpos < |m.order| <= m.tpos + 2
    && |m.order| == |m.enq| + 1
    && m.head.ptr == m.order[m.hpos] && m.tail.ptr == m.order[m.tpos]
    && forall i {:trigger InChain(m, i)} :: m.hpos <= i < |m.order| ==> InChain(m, i)
  }

  predicate InChain(m: Mem, i: nat)
    requires Keys(m) && i < |m.order|
  {
    var n := m.order[i];
    && n in m.nodes && m.role[n].Chained? && m.role[n].pos == i
    && m.nodes[n].next.ptr == if i + 1 < |m.order| then m.order[i + 1] else 0
  }

  predicate PoolChain(m: Mem)
    requires Keys(m)
  {
    && m.top.ptr == (if m.pool == [] then 0 else m.pool[|m.pool| - 1])
    && forall i {:trigger InPool(m, i)} :: 0 <= i < |m.pool| ==> InPool(m, i)
  }

  predicate InPool(m: Mem, i: nat)
    requires Keys(m) && i < |m.pool|
  {
    var n := m.pool[i];
    && n in m.nodes && m.role[n] == Pooled(i)
    && m.nodes[n].next.ptr == if i == 0 then 0 else m.pool[i - 1]
  }

  function Missing(o: Option<Tid>): nat
  {
    if o.None? then 1 else 0
  }

  /** The counts a node has received in its current life. */
  function Counts(r: Role, hpos: nat): nat
  {
    match r
    case Chained(p, taker) => if p == hpos then Missing(taker) else 0
    case Retired(taker, unlinker) => Missing(taker) + Missing(unlinker)
    case _ => 0
  }

  predicate RoleOk(m: Mem, n: Ptr)
    requires Keys(m) && n in m.nodes
  {
    && m.nodes[n].delCount == 2 * m.lives[n] + Counts(m.role[n], m.hpos)
    && match m.role[n]
       case Chained(p, taker) =>
         && m.hpos <= p < |m.order| == |m.enq| + 1 && m.order[p] == n
         && (p > m.hpos ==> taker == None && m.nodes[n].value == Some(m.enq[p - 1]))
         && (p == m.hpos && taker == None ==> m.nodes[n].value == None)
       case Retired(taker, unlinker) => (taker.Some? || unlinker.Some?) && (taker == None ==> m.nodes[n].value == None)
       case Pooled(i) => i < |m.pool| && m.pool[i] == n && m.nodes[n].value == None
       case Owned(t) => true
  }

  predicate MemInv(m: Mem)
  {
    && Keys(m) && Chain(m) && PoolChain(m)
    && forall n {:trigger RoleOk(m, n)} :: n in m.nodes ==> RoleOk(m, n)
  }

  /** The nodes a thread answers for name it in their role. */
  predicate Duties(m: Mem, t: Tid, l: Local)
  {
    && (l.take != 0 ==> l.take in m.role && TakerOf(m.role[l.take]) == Some(t))
    && (l.drop != 0 ==> l.drop in m.role && UnlinkerOf(m.role[l.drop]) == Some(t))
    && (l.own != 0 ==> l.own in m.role && m.role[l.own] == Owned(t))
  }

  predicate Putting(pc: Pc)
  {
    pc.PutTop? || pc.PutLoad? || pc.PutStore? || pc.PutCas?
  }

  predicate Owning(pc: Pc)
  {
    || pc.NewValue? || pc.NewLoad? || pc.NewStore? || pc.PushTail? || pc.PushNext? || pc.PushCheck?
    || pc.PushLink? || pc.PushHelp? || Putting(pc)
  }

  predicate Taking(pc: Pc)
  {
    pc.PopUnlink? || pc.PopValue? || pc.PopDrop?
  }

  /** Which locals are set where. */
  predicate Shape(l: Local)
  {
    && (l.own != 0 <==> Owning(l.pc))
    && (Taking(l.pc) ==> l.take != 0) && (l.take != 0 ==> Taking(l.pc) || Putting(l.pc))
    && (l.drop != 0 <==> l.pc.PopUnlink?)
    && (Putting(l.pc) && l.take == 0 ==> l.ret == Some(l.val))
    && (!Taking(l.pc) && !Putting(l.pc) && l.pc != PopDone ==> l.ret == None)
  }

  /** Conversely, a role names a thread only while that thread answers for the node. */
  predicate Names(m: Mem, t: Tid, l: Local)
  {
    forall n {:trigger NamesAt(m, t, l, n)} :: n in m.role ==> NamesAt(m, t, l, n)
  }

  predicate NamesAt(m: Mem, t: Tid, l: Local, n: Ptr)
    requires n in m.role
  {
    && (TakerOf(m.role[n]) == Some(t) ==> l.take == n)
    && (UnlinkerOf(m.role[n]) == Some(t) ==> l.drop == n)
    && (m.role[n] == Owned(t) ==> l.own == n)
  }

  function UnlinkerOf(r: Role): Option<Tid>
  {
    if r.Retired? then r.unlinker else None
  }

  predicate ThreadInv(m: Mem, t: Tid, l: Local)
  {
    Shape(l) && Duties(m, t, l) && Names(m, t, l) && Snapshot(m, l)
  }

  predicate Known(r: Role, threads: set<Tid>)
  {
    && (TakerOf(r).Some? ==> TakerOf(r).value in threads)
    && (UnlinkerOf(r).Some? ==> UnlinkerOf(r).value in threads)
    && (r.Owned? ==> r.t in threads)
  }

  predicate Inv(s: State)
  {
    && MemInv(s.m)
    && (forall t :: t in s.threads ==> ThreadInv(s.m, t, s.threads[t]))
    && (forall n :: n in s.m.role ==> Known(s.m.role[n], s.threads.Keys))
  }

  // ---- interference: what a step of one thread means to another ---------------

  /** The three words move only forward, and what hangs off an unmoved word stays. */
  predicate Forward(m: Mem, m': Mem)
  {
    && Seen(m.head, m'.head) && Seen(m.tail, m'.tail) && Seen(m.top, m'.top)
    && (m.head == m'.head && m.hpos < m.tpos ==> m'.hpos < m'.tpos)
    && (m.head == m'.head && m.head.ptr in m.nodes ==> KeepsNext(m, m', m.head.ptr))
    && (m.tail == m'.tail && m.tail.ptr in m.nodes ==> KeepsNext(m, m', m.tail.ptr))
    && (m.top == m'.top && m.top.ptr in m.nodes && m.top.ptr in m'.nodes ==> m'.nodes[m.top.ptr].next == m.nodes[m.top.ptr].next)
  }

  predicate KeepsNext(m: Mem, m': Mem, n: Ptr)
    requires n in m.nodes
  {
    n in m'.nodes && (m.nodes[n].next.ptr != 0 ==> m'.nodes[n].next == m.nodes[n].next)
  }

  /** Nodes stay allocated, and a `next` word is never restored. */
  predicate Grows(m: Mem, m': Mem)
  {
    forall n {:trigger GrowsAt(m, m', n)} :: n in m.nodes ==> GrowsAt(m, m', n)
  }

  predicate GrowsAt(m: Mem, m': Mem, n: Ptr)
    requires n in m.nodes
  {
    && n in m'.nodes && m.nodes[n].next.stamp <= m'.nodes[n].next.stamp
    && (m.nodes[n].next.stamp == m'.nodes[n].next.stamp && Last(m, n) ==> Last(m', n))
  }

  /** The nodes thread u answers for are left alone, and it gets no new ones. */
  predicate Respects(m: Mem, m': Mem, u: Tid)
    requires Keys(m) && Keys(m')
  {
    forall n {:trigger RespectsAt(m, m', u, n)} :: n in m'.nodes ==> RespectsAt(m, m', u, n)
  }

  predicate RespectsAt(m: Mem, m': Mem, u: Tid, n: Ptr)
    requires Keys(m) && Keys(m') && n in m'.nodes
  {
    if n in m.nodes then
      && (TakerOf(m.role[n]) == Some(u) <==> TakerOf(m'.role[n]) == Some(u))
      && (UnlinkerOf(m.role[n]) == Some(u) <==> UnlinkerOf(m'.role[n]) == Some(u))
      && (m.role[n] == Owned(u) <==> m'.role[n] == Owned(u))
      && (TakerOf(m.role[n]) == Some(u) ==> m'.nodes[n].value == m.nodes[n].value)
      && (m.role[n] == Owned(u) ==> m'.nodes[n] == m.nodes[n])
    else
      TakerOf(m'.role[n]) != Some(u) && UnlinkerOf(m'.role[n]) != Some(u) && m'.role[n] != Owned(u)
  }

  predicate Env(m: Mem, m': Mem, u: Tid)
  {
    Keys(m) && Keys(m') && Forward(m, m') && Grows(m, m') && Respects(m, m', u)
  }

  lemma StableOwn(m: Mem, m': Mem, u: Tid, l: Local)
    requires ThreadInv(m, u, l) && Env(m, m', u)
    ensures Duties(m', u, l) && Names(m', u, l) && SnapTake(m', l)
    ensures l.own != 0 ==> m'.nodes[l.own] == m.nodes[l.own]
  {
    forall n | n in m'.role ensures NamesAt(m', u, l, n) {
      assert RespectsAt(m, m', u, n);
      if n in m.role { assert NamesAt(m, u, l, n); }
    }
    if l.take != 0 { assert GrowsAt(m, m', l.take) && RespectsAt(m, m', u, l.take); }
    if l.drop != 0 { assert GrowsAt(m, m', l.drop) && RespectsAt(m, m', u, l.drop); }
    if l.own != 0 { assert GrowsAt(m, m', l.own) && RespectsAt(m, m', u, l.own); }
  }

  lemma StableNewPut(m: Mem, m': Mem, u: Tid, l: Local)
    requires Shape(l) && SnapNew(m, l) && SnapPut(m, l) && Env(m, m', u)
    requires l.own != 0 ==> l.own in m.nodes && l.own in m'.nodes && m'.nodes[l.own] == m.nodes[l.own]
    ensures SnapNew(m', l) && SnapPut(m', l)
  {
    if l.pc.NewNext? || l.pc.NewCas? { assert GrowsAt(m, m', l.pc.ct.ptr); }
  }

  lemma StablePush(m: Mem, m': Mem, u: Tid, l: Local)
    requires Shape(l) && SnapPush(m, l) && Env(m, m', u)
    requires l.own != 0 ==> l.own in m.nodes && l.own in m'.nodes && m'.nodes[l.own] == m.nodes[l.own]
    ensures SnapPush(m', l)
  {
    if l.pc.PushNext? || l.pc.PushCheck? || l.pc.PushLink? || l.pc.PushHelp? || l.pc.PushSwing? {
      assert GrowsAt(m, m', l.pc.ot.ptr);
    }
  }

  lemma StablePop(m: Mem, m': Mem, u: Tid, l: Local)
    requires SnapPop(m, l) && Env(m, m', u)
    ensures SnapPop(m', l)
  {
    if l.pc.PopNext? || l.pc.PopTail? || l.pc.PopCheck? || l.pc.PopCas? { assert GrowsAt(m, m', l.pc.ho.ptr); }
    if l.pc.PopCheck? || l.pc.PopHelp? { assert GrowsAt(m, m', l.pc.to.ptr); }
  }

  lemma Stable(m: Mem, m': Mem, u: Tid, l: Local)
    requires ThreadInv(m, u, l) && Env(m, m', u)
    ensures ThreadInv(m', u, l)
  {
    StableOwn(m, m', u, l);
    StableNewPut(m, m', u, l);
    StablePush(m, m', u, l);
    StablePop(m, m', u, l);
  }

  // ---- steps ----------------------------------------------------------------

  /** What the three stamped words say about the chains. */
  predicate Ends(m: Mem)
  {
    && m.head.ptr in m.nodes && m.tail.ptr in m.nodes && (m.top.ptr != 0 ==> m.top.ptr in m.nodes)
    && (m.nodes[m.tail.ptr].next.ptr == 0 ==> Last(m, m.tail.ptr))
    && (m.nodes[m.head.ptr].next.ptr == 0 ==> m.hpos == |m.enq|)
    && (m.head.ptr != m.tail.ptr ==> m.hpos < m.tpos)
  }

  lemma EndsHold(m: Mem)
    requires MemInv(m)
    ensures Ends(m)
  {
    assert InChain(m, m.hpos) && InChain(m, m.tpos);
    if m.hpos + 1 < |m.order| { assert InChain(m, m.hpos + 1); }
    if m.tpos + 1 < |m.order| { assert InChain(m, m.tpos + 1); }
    if m.pool != [] { assert InPool(m, |m.pool| - 1); }
  }

  lemma ReadShape(m: Mem, l: Local, l': Local)
    requires Shape(l) && l' == l.(pc := l'.pc) && Read(m, l, l'.pc)
    ensures Shape(l')
  {
  }

  lemma ReadNewPut(m: Mem, l: Local, l': Local)
    requires Ends(m) && SnapNew(m, l) && SnapPut(m, l) && Read(m, l, l'.pc) && l' == l.(pc := l'.pc)
    ensures SnapNew(m, l') && SnapPut(m, l')
  {
  }

  lemma ReadPush(m: Mem, l: Local, l': Local)
    requires Ends(m) && SnapPush(m, l) && Read(m, l, l'.pc) && l' == l.(pc := l'.pc)
    ensures SnapPush(m, l')
  {
  }

  lemma ReadPop(m: Mem, l: Local, l': Local)
    requires Ends(m) && SnapPop(m, l) && Read(m, l, l'.pc) && l' == l.(pc := l'.pc)
    ensures SnapPop(m, l')
  {
  }

  lemma ReadTake(m: Mem, l: Local, l': Local)
    requires SnapTake(m, l) && Shape(l) && Read(m, l, l'.pc) && l' == l.(pc := l'.pc)
    ensures SnapTake(m, l')
  {
  }

  // ---- updates of a single node -----------------------------------------------

  predicate SameNode(m: Mem, m': Mem, n: Ptr)
    requires Keys(m) && Keys(m') && n in m.nodes
  {
    && n in m'.nodes && m'.role[n] == m.role[n] && m'.lives[n] == m.lives[n] && m'.nodes[n] == m.nodes[n]
  }

  /** Chains and positions are as before, and only node x differs. */
  predicate OnlyNode(m: Mem, m': Mem, x: Ptr)
    requires Keys(m)
  {
    && Keys(m')
    && m' == m.(nodes := m'.nodes, role := m'.role, lives := m'.lives)
    && x in m'.nodes
    && (forall n {:trigger SameNode(m, m', n)} :: n in m.nodes && n != x ==> SameNode(m, m', n))
    && m'.nodes.Keys == m.nodes.Keys + {x}
    && (x in m.nodes && m.role[x].Chained? ==>
          m'.role[x].Chained? && m'.role[x].pos == m.role[x].pos && m'.nodes[x].next == m.nodes[x].next)
    && (x in m.nodes && m.role[x].Pooled? ==> m'.role[x] == m.role[x] && m'.nodes[x].next == m.nodes[x].next)
  }

  lemma ChainSameNode(m: Mem, m': Mem, x: Ptr)
    requires Keys(m) && Chain(m) && OnlyNode(m, m', x)
    ensures Chain(m')
  {
    forall i | m.hpos <= i < |m.order| ensures InChain(m', i) {
      assert InChain(m, i);
      if m.order[i] != x { assert SameNode(m, m', m.order[i]); }
    }
  }

  lemma PoolSameNode(m: Mem, m': Mem, x: Ptr)
    requires Keys(m) && PoolChain(m) && OnlyNode(m, m', x)
    ensures PoolChain(m')
  {
    forall i | 0 <= i < |m.pool| ensures InPool(m', i) {
      assert InPool(m, i);
      if m.pool[i] != x { assert SameNode(m, m', m.pool[i]); }
    }
  }

  lemma MemSameNode(m: Mem, m': Mem, x: Ptr)
    requires MemInv(m) && OnlyNode(m, m', x) && RoleOk(m', x)
    ensures MemInv(m')
  {
    ChainSameNode(m, m', x);
    PoolSameNode(m, m', x);
    forall n | n in m'.nodes ensures RoleOk(m', n) {
      if n != x { assert RoleOk(m, n) && SameNode(m, m', n); }
    }
  }

  lemma OwnWriteMem(m: Mem, t: Tid, l: Local, m': Mem, l': Local)
    requires MemInv(m) && Shape(l) && Duties(m, t, l) && OwnWrite(m, l, m', l')
    ensures MemInv(m')
  {
    assert RoleOk(m, l.own);
    MemSameNode(m, m', l.own);
  }

  lemma AllocMem(m: Mem, t: Tid, l: Local, m': Mem, l': Local)
    requires MemInv(m) && Shape(l) && Duties(m, t, l) && Alloc(m, t, l, m', l')
    ensures MemInv(m')
  {
    MemSameNode(m, m', l'.own);
  }

  lemma TakeValueMem(m: Mem, t: Tid, l: Local, m': Mem, l': Local)
    requires MemInv(m) && Shape(l) && Duties(m, t, l) && TakeValue(m, l, m', l')
    ensures MemInv(m')
  {
    assert RoleOk(m, l.take);
    MemSameNode(m, m', l.take);
  }

  lemma CountUnlinkMem(m: Mem, t: Tid, l: Local, m': Mem, l': Local)
    requires MemInv(m) && Shape(l) && Duties(m, t, l) && CountUnlink(m, t, l, m', l')
    ensures MemInv(m')
  {
    assert RoleOk(m, l.drop);
    MemSameNode(m, m', l.drop);
  }

  lemma CountTakeMem(m: Mem, t: Tid, l: Local, m': Mem, l': Local)
    requires MemInv(m) && Shape(l) && Duties(m, t, l) && SnapTake(m, l) && CountTake(m, t, l, m', l')
    ensures MemInv(m')
  {
    assert RoleOk(m, l.take);
    MemSameNode(m, m', l.take);
  }

  // ---- updates of the two chains ------------------------------------------------

  lemma PoolPopMem(m: Mem, t: Tid, l: Local, m': Mem, l': Local)
    requires MemInv(m) && SnapNew(m, l) && PoolPop(m, t, l, m', l')
    ensures MemInv(m')
  {
    var k := |m.pool| - 1;
    assert InPool(m, k);
    assert RoleOk(m, m.pool[k]);
    if k > 0 { assert InPool(m, k - 1); }
    forall i | m.hpos <= i < |m.order| ensures InChain(m', i) { assert InChain(m, i); }
    forall i | 0 <= i < |m'.pool| ensures InPool(m', i) { assert InPool(m, i); }
    forall n | n in m'.nodes ensures RoleOk(m', n) { assert RoleOk(m, n); }
  }

  lemma PoolPushMem(m: Mem, t: Tid, l: Local, m': Mem, l': Local)
    requires MemInv(m) && Shape(l) && Duties(m, t, l) && SnapPut(m, l) && PoolPush(m, l, m', l')
    ensures MemInv(m')
  {
    assert RoleOk(m, l.own);
    forall i | m.hpos <= i < |m.order| ensures InChain(m', i) { assert InChain(m, i); }
    forall i | 0 <= i < |m'.pool| ensures InPool(m', i) { if i < |m.pool| { assert InPool(m, i); } }
    forall n | n in m'.nodes ensures RoleOk(m', n) { assert RoleOk(m, n); }
  }

  lemma LinkMem(m: Mem, t: Tid, l: Local, m': Mem, l': Local)
    requires MemInv(m) && Shape(l) && Duties(m, t, l) && SnapPush(m, l) && Link(m, l, m', l')
    ensures MemInv(m')
  {
    assert InChain(m, |m.order| - 1) && RoleOk(m, l.own);
    forall i | m.hpos <= i < |m'.order| ensures InChain(m', i) { LinkChain(m, t, l, m', l', i); }
    forall i | 0 <= i < |m'.pool| ensures InPool(m', i) { assert InPool(m, i); }
    forall n | n in m'.nodes ensures RoleOk(m', n) { LinkRole(m, t, l, m', l', n); }
  }

  lemma LinkChain(m: Mem, t: Tid, l: Local, m': Mem, l': Local, i: nat)
    requires MemInv(m) && Shape(l) && Duties(m, t, l) && SnapPush(m, l) && Link(m, l, m', l') && Keys(m') && m.hpos <= i < |m'.order|
    ensures InChain(m', i)
  {
    assert InChain(m, |m.order| - 1);
    if i < |m.order| { assert InChain(m, i); }
  }

  lemma LinkRole(m: Mem, t: Tid, l: Local, m': Mem, l': Local, n: Ptr)
    requires Keys(m) && Chain(m) && Shape(l) && Duties(m, t, l) && SnapPush(m, l) && Link(m, l, m', l') && Keys(m')
    requires n in m.nodes && RoleOk(m, n)
    ensures RoleOk(m', n)
  {}

  lemma SwingMem(m: Mem, t: Tid, l: Local, m': Mem, l': Local)
    requires MemInv(m) && SnapPush(m, l) && SnapPop(m, l) && Swing(m, l, m', l')
    ensures MemInv(m')
  {
    assert InChain(m, m.tpos);
    forall i | m.hpos <= i < |m.order| ensures InChain(m', i) { assert InChain(m, i); }
    forall i | 0 <= i < |m'.pool| ensures InPool(m', i) { assert InPool(m, i); }
    forall n | n in m'.nodes ensures RoleOk(m', n) { assert RoleOk(m, n); }
  }

  lemma UnlinkMem(m: Mem, t: Tid, l: Local, m': Mem, l': Local)
    requires MemInv(m) && SnapPop(m, l) && Unlink(m, t, l, m', l')
    ensures MemInv(m')
  {
    assert InChain(m, m.hpos) && InChain(m, m.hpos + 1);
    assert RoleOk(m, m.order[m.hpos]) && RoleOk(m, m.order[m.hpos + 1]);
    forall i | m'.hpos <= i < |m.order| ensures InChain(m', i) { assert InChain(m, i); }
    forall i | 0 <= i < |m'.pool| ensures InPool(m', i) { assert InPool(m, i); }
    forall n | n in m'.nodes ensures RoleOk(m', n) { assert RoleOk(m, n); }
  }

  // ---- the acting thread, and the others ----------------------------------------

  /** The three words point at chain and pool nodes only. */
  lemma EndsApart(m: Mem, n: Ptr)
    requires MemInv(m) && n in m.nodes && !m.role[n].Chained? && !m.role[n].Pooled?
    ensures n != m.head.ptr && n != m.tail.ptr && n != m.top.ptr && !Last(m, n)
  {
    assert InChain(m, m.hpos) && InChain(m, m.tpos);
    if m.pool != [] { assert InPool(m, |m.pool| - 1); }
  }

  lemma PoolPopOwn(m: Mem, t: Tid, l: Local, m': Mem, l': Local)
    requires MemInv(m) && ThreadInv(m, t, l) && PoolPop(m, t, l, m', l')
    ensures ThreadInv(m', t, l')
  {
    assert InPool(m, |m.pool| - 1);
    forall n | n in m'.role ensures NamesAt(m', t, l', n) { if n in m.role { assert NamesAt(m, t, l, n); } }
  }

  lemma PoolPopEnv(m: Mem, t: Tid, l: Local, m': Mem, l': Local, u: Tid)
    requires MemInv(m) && SnapNew(m, l) && PoolPop(m, t, l, m', l') && u != t
    ensures Env(m, m', u)
  {
    assert InPool(m, |m.pool| - 1);
  }

  lemma PoolPushOwn(m: Mem, t: Tid, l: Local, m': Mem, l': Local)
    requires Keys(m) && ThreadInv(m, t, l) && PoolPush(m, l, m', l')
    ensures ThreadInv(m', t, l')
  {
    forall n | n in m'.role ensures NamesAt(m', t, l', n) { if n in m.role { assert NamesAt(m, t, l, n); } }
  }

  lemma PoolPushEnv(m: Mem, t: Tid, l: Local, m': Mem, l': Local, u: Tid)
    requires MemInv(m) && Shape(l) && Duties(m, t, l) && SnapPut(m, l) && PoolPush(m, l, m', l') && u != t
    ensures Env(m, m', u)
  {
  }

  lemma OwnWriteOwn(m: Mem, t: Tid, l: Local, m': Mem, l': Local)
    requires Keys(m) && ThreadInv(m, t, l) && OwnWrite(m, l, m', l')
    ensures ThreadInv(m', t, l')
  {
    assert Shape(l');
    forall n | n in m'.role ensures NamesAt(m', t, l', n) { if n in m.role { assert NamesAt(m, t, l, n); } }
  }

  lemma OwnWriteEnv(m: Mem, t: Tid, l: Local, m': Mem, l': Local, u: Tid)
    requires MemInv(m) && Shape(l) && Duties(m, t, l) && SnapNew(m, l) && SnapPut(m, l) && OwnWrite(m, l, m', l') && u != t
    ensures Env(m, m', u)
  {
    EndsApart(m, l.own);
  }

  lemma AllocOwn(m: Mem, t: Tid, l: Local, m': Mem, l': Local)
    requires Keys(m) && ThreadInv(m, t, l) && Alloc(m, t, l, m', l')
    ensures ThreadInv(m', t, l')
  {
    forall n | n in m'.role ensures NamesAt(m', t, l', n) { if n in m.role { assert NamesAt(m, t, l, n); } }
  }

  lemma AllocEnv(m: Mem, t: Tid, l: Local, m': Mem, l': Local, u: Tid)
    requires MemInv(m) && Alloc(m, t, l, m', l') && u != t
    ensures Env(m, m', u)
  {
  }

  lemma LinkOwn(m: Mem, t: Tid, l: Local, m': Mem, l': Local)
    requires MemInv(m) && ThreadInv(m, t, l) && Link(m, l, m', l')
    ensures ThreadInv(m', t, l')
  {
    assert InChain(m, m.tpos) && InChain(m, m.hpos);
    if m.pool != [] { assert InPool(m, |m.pool| - 1); }
    forall n | n in m'.role ensures NamesAt(m', t, l', n) { if n in m.role { assert NamesAt(m, t, l, n); } }
  }

  lemma LinkForward(m: Mem, t: Tid, l: Local, m': Mem, l': Local)
    requires MemInv(m) && Shape(l) && Duties(m, t, l) && SnapPush(m, l) && Link(m, l, m', l')
    ensures Keys(m') && Forward(m, m')
  {
    var p := l.pc.ot.ptr;
    assert p != m.top.ptr && m.nodes[p].next.ptr == 0 by { LinkSees(m, l); }
    assert Keys(m') && m'.nodes == m.nodes[p := m'.nodes[p]];
  }

  /** A node that is linked to is last in the chain, and so not at the top of the pool. */
  lemma LinkSees(m: Mem, l: Local)
    requires MemInv(m) && SnapPush(m, l) && l.pc.PushLink? && l.pc.ot.ptr in m.nodes && m.nodes[l.pc.ot.ptr].next == l.pc.on
    ensures l.pc.ot.ptr != m.top.ptr && m.nodes[l.pc.ot.ptr].next.ptr == 0
  {
    assert InChain(m, m.tpos);
    if m.pool != [] { assert InPool(m, |m.pool| - 1); }
  }

  lemma LinkGrows(m: Mem, t: Tid, l: Local, m': Mem, l': Local)
    requires MemInv(m) && Shape(l) && Duties(m, t, l) && SnapPush(m, l) && Link(m, l, m', l')
    ensures Grows(m, m')
  {
    assert InChain(m, m.tpos);
    forall n | n in m.nodes ensures GrowsAt(m, m', n) {}
  }

  lemma LinkEnv(m: Mem, t: Tid, l: Local, m': Mem, l': Local, u: Tid)
    requires MemInv(m) && Shape(l) && Duties(m, t, l) && SnapPush(m, l) && Link(m, l, m', l') && u != t
    ensures Env(m, m', u)
  {
    LinkForward(m, t, l, m', l');
    LinkGrows(m, t, l, m', l');
    assert InChain(m, |m.order| - 1);
    forall n | n in m'.nodes ensures RespectsAt(m, m', u, n) {}
  }

  lemma SwingOwn(m: Mem, t: Tid, l: Local, m': Mem, l': Local)
    requires Keys(m) && ThreadInv(m, t, l) && Swing(m, l, m', l')
    ensures ThreadInv(m', t, l')
  {
    assert l'.pc == PushTail || l'.pc == PushDone || l'.pc == PopHead;
    assert Shape(l');
    forall n | n in m'.role ensures NamesAt(m', t, l', n) { if n in m.role { assert NamesAt(m, t, l, n); } }
  }

  lemma SwingEnv(m: Mem, t: Tid, l: Local, m': Mem, l': Local, u: Tid)
    requires MemInv(m) && SnapPush(m, l) && SnapPop(m, l) && Swing(m, l, m', l') && u != t
    ensures Env(m, m', u)
  {
    assert InChain(m, m.tpos);
    assert InChain(m, m.hpos);
  }

  /** The nodes at the head, as the thread that swings it sees them. */
  lemma UnlinkSees(m: Mem, l: Local)
    requires MemInv(m) && SnapPop(m, l) && l.pc.PopCas? && m.head == l.pc.ho
    ensures m.hpos + 1 < |m.order| && l.pc.ho.ptr == m.order[m.hpos] && l.pc.hn.ptr == m.order[m.hpos + 1] != l.pc.ho.ptr
    ensures l.pc.ho.ptr in m.nodes && m.role[l.pc.ho.ptr].Chained? && l.pc.hn.ptr in m.nodes
    ensures m.role[l.pc.hn.ptr] == Chained(m.hpos + 1, None) && m.nodes[l.pc.hn.ptr].value == Some(m.enq[m.hpos])
  {
    assert InChain(m, m.hpos) && InChain(m, m.hpos + 1);
    assert RoleOk(m, m.order[m.hpos]) && RoleOk(m, m.order[m.hpos + 1]);
  }

  lemma UnlinkOwn(m: Mem, t: Tid, l: Local, m': Mem, l': Local)
    requires MemInv(m) && ThreadInv(m, t, l) && Unlink(m, t, l, m', l')
    ensures ThreadInv(m', t, l')
  {
    UnlinkSees(m, l);
    assert Shape(l');
    assert Duties(m', t, l');
    UnlinkNames(m, t, l, m', l');
  }

  lemma UnlinkNames(m: Mem, t: Tid, l: Local, m': Mem, l': Local)
    requires MemInv(m) && ThreadInv(m, t, l) && Unlink(m, t, l, m', l') && Keys(m')
    ensures Names(m', t, l')
  {
    UnlinkSees(m, l);
    forall n | n in m'.role ensures NamesAt(m', t, l', n) { if n in m.role { assert NamesAt(m, t, l, n); } }
  }

  lemma UnlinkEnv(m: Mem, t: Tid, l: Local, m': Mem, l': Local, u: Tid)
    requires MemInv(m) && SnapPop(m, l) && Unlink(m, t, l, m', l') && u != t
    ensures Env(m, m', u)
  {
    assert InChain(m, m.hpos) && InChain(m, m.hpos + 1);
    assert RoleOk(m, m.order[m.hpos]) && RoleOk(m, m.order[m.hpos + 1]);
  }

  lemma CountUnlinkOwn(m: Mem, t: Tid, l: Local, m': Mem, l': Local)
    requires MemInv(m) && ThreadInv(m, t, l) && CountUnlink(m, t, l, m', l')
    ensures ThreadInv(m', t, l')
  {
    assert RoleOk(m, l.drop);
    forall n | n in m'.role ensures NamesAt(m', t, l', n) { if n in m.role { assert NamesAt(m, t, l, n); } }
  }

  lemma CountUnlinkEnv(m: Mem, t: Tid, l: Local, m': Mem, l': Local, u: Tid)
    requires MemInv(m) && Shape(l) && Duties(m, t, l) && CountUnlink(m, t, l, m', l') && u != t
    ensures Env(m, m', u)
  {
    assert RoleOk(m, l.drop);
  }

  lemma TakeValueOwn(m: Mem, t: Tid, l: Local, m': Mem, l': Local)
    requires Keys(m) && ThreadInv(m, t, l) && TakeValue(m, l, m', l')
    ensures ThreadInv(m', t, l')
  {
    forall n | n in m'.role ensures NamesAt(m', t, l', n) { if n in m.role { assert NamesAt(m, t, l, n); } }
  }

  lemma TakeValueEnv(m: Mem, t: Tid, l: Local, m': Mem, l': Local, u: Tid)
    requires MemInv(m) && Shape(l) && Duties(m, t, l) && TakeValue(m, l, m', l') && u != t
    ensures Env(m, m', u)
  {
  }

  lemma CountTakeOwn(m: Mem, t: Tid, l: Local, m': Mem, l': Local)
    requires MemInv(m) && ThreadInv(m, t, l) && CountTake(m, t, l, m', l')
    ensures ThreadInv(m', t, l')
  {
    assert RoleOk(m, l.take);
    forall n | n in m'.role ensures NamesAt(m', t, l', n) { if n in m.role { assert NamesAt(m, t, l, n); } }
  }

  lemma CountTakeEnv(m: Mem, t: Tid, l: Local, m': Mem, l': Local, u: Tid)
    requires MemInv(m) && Shape(l) && Duties(m, t, l) && CountTake(m, t, l, m', l') && u != t
    ensures Env(m, m', u)
  {
    assert RoleOk(m, l.take);
  }

  // ---- every step keeps the invariant ---------------------------------------------

  lemma ReadOwn(m: Mem, t: Tid, l: Local, l': Local)
    requires MemInv(m) && ThreadInv(m, t, l) && l' == l.(pc := l'.pc) && Read(m, l, l'.pc)
    ensures ThreadInv(m, t, l')
  {
    EndsHold(m);
    ReadShape(m, l, l');
    ReadNewPut(m, l, l');
    ReadPush(m, l, l');
    ReadPop(m, l, l');
    ReadTake(m, l, l');
    forall n | n in m.role ensures NamesAt(m, t, l', n) { assert NamesAt(m, t, l, n); }
  }

  lemma CallOwn(m: Mem, t: Tid, l: Local, l': Local)
    requires ThreadInv(m, t, l) && CallReturn(l, l')
    ensures ThreadInv(m, t, l')
  {
    forall n | n in m.role ensures NamesAt(m, t, l', n) { assert NamesAt(m, t, l, n); }
  }

  lemma ActionKeeps(m: Mem, t: Tid, l: Local, m': Mem, l': Local)
    requires MemInv(m) && ThreadInv(m, t, l) && Action(m, t, l, m', l')
    ensures MemInv(m') && ThreadInv(m', t, l')
  {
    if m' == m && l' == l.(pc := l'.pc) && Read(m, l, l'.pc) { ReadOwn(m, t, l, l'); }
    else if m' == m && CallReturn(l, l') { CallOwn(m, t, l, l'); }
    else if PoolPop(m, t, l, m', l') { PoolPopMem(m, t, l, m', l'); PoolPopOwn(m, t, l, m', l'); }
    else if PoolPush(m, l, m', l') { PoolPushMem(m, t, l, m', l'); PoolPushOwn(m, t, l, m', l'); }
    else if OwnWrite(m, l, m', l') { OwnWriteMem(m, t, l, m', l'); OwnWriteOwn(m, t, l, m', l'); }
    else if Alloc(m, t, l, m', l') { AllocMem(m, t, l, m', l'); AllocOwn(m, t, l, m', l'); }
    else if Link(m, l, m', l') { LinkMem(m, t, l, m', l'); LinkOwn(m, t, l, m', l'); }
    else if Swing(m, l, m', l') { SwingMem(m, t, l, m', l'); SwingOwn(m, t, l, m', l'); }
    else if Unlink(m, t, l, m', l') { UnlinkMem(m, t, l, m', l'); UnlinkOwn(m, t, l, m', l'); }
    else { TakingKeeps(m, t, l, m', l'); }
  }

  /** The value and the two counts. */
  lemma TakingKeeps(m: Mem, t: Tid, l: Local, m': Mem, l': Local)
    requires MemInv(m) && ThreadInv(m, t, l) && (CountUnlink(m, t, l, m', l') || TakeValue(m, l, m', l') || CountTake(m, t, l, m', l'))
    ensures MemInv(m') && ThreadInv(m', t, l')
  {
    if CountUnlink(m, t, l, m', l') { CountUnlinkMem(m, t, l, m', l'); CountUnlinkOwn(m, t, l, m', l'); }
    else if TakeValue(m, l, m', l') { TakeValueMem(m, t, l, m', l'); TakeValueOwn(m, t, l, m', l'); }
    else { CountTakeMem(m, t, l, m', l'); CountTakeOwn(m, t, l, m', l'); }
  }

  lemma ActionEnv(m: Mem, t: Tid, l: Local, m': Mem, l': Local, u: Tid)
    requires MemInv(m) && ThreadInv(m, t, l) && Action(m, t, l, m', l') && u != t
    ensures Env(m, m', u)
  {
    if m' == m { }
    else if PoolPop(m, t, l, m', l') { PoolPopEnv(m, t, l, m', l', u); }
    else if PoolPush(m, l, m', l') { PoolPushEnv(m, t, l, m', l', u); }
    else if OwnWrite(m, l, m', l') { OwnWriteEnv(m, t, l, m', l', u); }
    else if Alloc(m, t, l, m', l') { AllocEnv(m, t, l, m', l', u); }
    else if Link(m, l, m', l') { LinkEnv(m, t, l, m', l', u); }
    else if Swing(m, l, m', l') { SwingEnv(m, t, l, m', l', u); }
    else if Unlink(m, t, l, m', l') { UnlinkEnv(m, t, l, m', l', u); }
    else if CountUnlink(m, t, l, m', l') { CountUnlinkEnv(m, t, l, m', l', u); }
    else if TakeValue(m, l, m', l') { TakeValueEnv(m, t, l, m', l', u); }
    else { CountTakeEnv(m, t, l, m', l', u); }
  }

  /** A role names no thread but the acting one that it did not name before. */
  lemma ActionKnown(m: Mem, t: Tid, l: Local, m': Mem, l': Local, threads: set<Tid>)
    requires MemInv(m) && ThreadInv(m, t, l) && Action(m, t, l, m', l') && t in threads
    requires forall n :: n in m.role ==> Known(m.role[n], threads)
    ensures forall n :: n in m'.role ==> Known(m'.role[n], threads)
  {
    forall n | n in m'.role ensures Known(m'.role[n], threads) {
      var r := m'.role[n];
      forall u | u !in threads ensures TakerOf(r) != Some(u) && UnlinkerOf(r) != Some(u) && r != Owned(u) {
        ActionEnv(m, t, l, m', l', u);
        assert RespectsAt(m, m', u, n);
      }
    }
  }

  /** Every step of every thread keeps the invariant. */
  lemma StepKeeps(s: State, t: Tid, s': State)
    requires Inv(s) && ThreadStep(s, t, s')
    ensures Inv(s')
  {
    var l, l' := s.threads[t], s'.threads[t];
    ActionKeeps(s.m, t, l, s'.m, l');
    ActionKnown(s.m, t, l, s'.m, l', s.threads.Keys);
    assert s'.threads.Keys == s.threads.Keys;
    forall u | u in s'.threads ensures ThreadInv(s'.m, u, s'.threads[u]) {
      if u != t { OtherStays(s.m, t, l, s'.m, l', u, s.threads[u]); }
    }
  }

  lemma OtherStays(m: Mem, t: Tid, l: Local, m': Mem, l': Local, u: Tid, k: Local)
    requires MemInv(m) && ThreadInv(m, t, l) && Action(m, t, l, m', l') && ThreadInv(m, u, k) && u != t && MemInv(m')
    ensures ThreadInv(m', u, k)
  {
    ActionEnv(m, t, l, m', l', u);
    Stable(m, m', u, k);
  }

  lemma InitHolds(s: State)
    requires Init(s)
    ensures Inv(s)
  {
    var d: Ptr :| d != 0 && s.m == InitMem(d);
    assert InChain(s.m, 0) && RoleOk(s.m, d);
    forall t | t in s.threads ensures ThreadInv(s.m, t, s.threads[t]) {
      assert NamesAt(s.m, t, Rest(), d);
    }
  }

  lemma {:induction false} RunKeeps(run: seq<State>, i: nat)
    requires IsRun(run) && i < |run|
    ensures Inv(run[i])
  {
    if i == 0 {
      InitHolds(run[0]);
    } else {
      RunKeeps(run, i - 1);
      assert Next(run[i - 1], run[i]);
      var t :| ThreadStep(run[i - 1], t, run[i]);
      StepKeeps(run[i - 1], t, run[i]);
    }
  }
}

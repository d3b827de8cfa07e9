/**
The lock-free queue refines an atomic FIFO queue, recycles each node once per
life, never touches unallocated memory, and is destroyed without leaks.
*/
module LockFreeQueueTheorems {
  import opened LockFreeQueue
  import opened LockFreeQueueProof

  // ---- the atomic queue it implements -------------------------------------

  /** What a caller has seen of its operation. */
  datatype Op =
    | Quiet
    | Pushing(v: Value)
    | Pushed
    | Popping(sawEmpty: bool)
    | Popped(v: Value)
    | Returning(r: Option<Value>)

  datatype Spec = Spec(queue: seq<Value>, ops: map<Tid, Op>)

  /**
   An atomic queue.  TryPop takes the oldest value in one indivisible step, and
   returns nullopt only if the queue was empty at some instant of the call.
   */
  ghost predicate SpecMove(q: seq<Value>, op: Op, q': seq<Value>, op': Op)
  {
    || (q' == q && op' == op)
    || match op
       case Quiet => q' == q && (op'.Pushing? || op' == Popping(false))
       case Pushing(v) => q' == q + [v] && op' == Pushed
       case Pushed => q' == q && op' == Quiet
       case Popping(e) =>
         || (q' == q && op'.Popping? && (op'.sawEmpty ==> q == []))
         || (q' == q && op' == Returning(None) && e)
         || (q != [] && op' == Popped(q[0]) && q' == q[1..])
       case Popped(v) => q' == q && op' == Returning(Some(v))
       case Returning(r) => q' == q && op' == Quiet
  }

  ghost predicate SpecStep(a: Spec, t: Tid, a': Spec)
  {
    && t in a.ops && t in a'.ops && a'.ops == a.ops[t := a'.ops[t]]
    && SpecMove(a.queue, a.ops[t], a'.queue, a'.ops[t])
  }

  function OpOf(l: Local): Op
  {
    match l.pc
    case Idle => Quiet
    case PushSwing(_, _) => Pushed
    case PushDone => Pushed
    case PopHead => Popping(false)
    case PopNext(_) => Popping(false)
    case PopTail(_, _, e) => Popping(e)
    case PopCheck(_, _, _, e) => Popping(e)
    case PopCas(_, _) => Popping(false)
    case PopHelp(_, _) => Popping(false)
    case PopDone => Returning(l.ret)
    case _ => if Taking(l.pc) || Putting(l.pc) then Popped(l.val) else Pushing(l.val)
  }

  /** The abstract queue: the values linked and not yet unlinked, oldest first. */
  function Queue(m: Mem): seq<Value>
  {
    if m.hpos <= |m.enq| then m.enq[m.hpos..] else []
  }

  ghost function Abs(s: State): Spec
  {
    Spec(Queue(s.m), map t | t in s.threads :: OpOf(s.threads[t]))
  }

  // ---- refinement ------------------------------------------------------------

  lemma ReadRefines(m: Mem, l: Local, l': Local)
    requires Ends(m) && Shape(l) && SnapPop(m, l) && l' == l.(pc := l'.pc) && Read(m, l, l'.pc)
    ensures SpecMove(Queue(m), OpOf(l), Queue(m), OpOf(l'))
  {
    if l.pc.PopNext? {
      assert Queue(m) == [] <== m.hpos == |m.enq|;
    }
  }

  lemma CallRefines(m: Mem, l: Local, l': Local)
    requires CallReturn(l, l')
    ensures SpecMove(Queue(m), OpOf(l), Queue(m), OpOf(l'))
  {
  }

  lemma LinkRefines(m: Mem, l: Local, m': Mem, l': Local)
    requires m.hpos <= |m.enq| && Link(m, l, m', l')
    ensures SpecMove(Queue(m), OpOf(l), Queue(m'), OpOf(l'))
  {
    assert m'.enq[m.hpos..] == m.enq[m.hpos..] + [l.val];
  }

  lemma UnlinkRefines(m: Mem, t: Tid, l: Local, m': Mem, l': Local)
    requires m.tpos <= |m.enq| && SnapPop(m, l) && Unlink(m, t, l, m', l')
    ensures SpecMove(Queue(m), OpOf(l), Queue(m'), OpOf(l'))
  {
    assert m.enq[m.hpos..][1..] == m.enq[m.hpos + 1..];
  }

  /** Writes before the linearization point are invisible. */
  lemma PrepareRefines(m: Mem, t: Tid, l: Local, m': Mem, l': Local)
    requires PoolPop(m, t, l, m', l') || OwnWrite(m, l, m', l') || Alloc(m, t, l, m', l') || Swing(m, l, m', l')
    ensures SpecMove(Queue(m), OpOf(l), Queue(m'), OpOf(l'))
  {
    assert m'.enq == m.enq && m'.hpos == m.hpos;
    PrepareQuiet(m, t, l, m', l');
  }

  lemma PrepareQuiet(m: Mem, t: Tid, l: Local, m': Mem, l': Local)
    requires PoolPop(m, t, l, m', l') || OwnWrite(m, l, m', l') || Alloc(m, t, l, m', l') || Swing(m, l, m', l')
    ensures OpOf(l') == OpOf(l)
  {}

  /** Writes after it are invisible too, except that the last of them lets TryPop return. */
  lemma FinishRefines(m: Mem, t: Tid, l: Local, m': Mem, l': Local)
    requires Shape(l) && SnapTake(m, l)
    requires PoolPush(m, l, m', l') || CountUnlink(m, t, l, m', l') || TakeValue(m, l, m', l') || CountTake(m, t, l, m', l')
    ensures SpecMove(Queue(m), OpOf(l), Queue(m'), OpOf(l'))
  {
    assert Queue(m') == Queue(m) && OpOf(l) == Popped(l.val);
  }

  lemma ActionRefines(m: Mem, t: Tid, l: Local, m': Mem, l': Local)
    requires MemInv(m) && ThreadInv(m, t, l) && Action(m, t, l, m', l')
    ensures SpecMove(Queue(m), OpOf(l), Queue(m'), OpOf(l'))
  {
    if m' == m && l' == l.(pc := l'.pc) && Read(m, l, l'.pc) { EndsHold(m); ReadRefines(m, l, l'); }
    else if m' == m && CallReturn(l, l') { CallRefines(m, l, l'); }
    else if Link(m, l, m', l') { LinkRefines(m, l, m', l'); }
    else if Unlink(m, t, l, m', l') { UnlinkRefines(m, t, l, m', l'); }
    else if PoolPush(m, l, m', l') || CountUnlink(m, t, l, m', l') || TakeValue(m, l, m', l') || CountTake(m, t, l, m', l') {
      FinishRefines(m, t, l, m', l');
    }
    else { PrepareRefines(m, t, l, m', l'); }
  }

  /** Each step of the queue is a step of the atomic queue, or invisible. */
  lemma StepRefines(s: State, t: Tid, s': State)
    requires Inv(s) && ThreadStep(s, t, s')
    ensures SpecStep(Abs(s), t, Abs(s'))
  {
    ActionRefines(s.m, t, s.threads[t], s'.m, s'.threads[t]);
    OnlyOp(s, t, s');
  }

  lemma OnlyOp(s: State, t: Tid, s': State)
    requires t in s.threads && t in s'.threads && s'.threads == s.threads[t := s'.threads[t]]
    ensures Abs(s').ops == Abs(s).ops[t := OpOf(s'.threads[t])]
  {}

  ghost predicate SpecInit(a: Spec)
  {
    a.queue == [] && forall t :: t in a.ops ==> a.ops[t] == Quiet
  }

  ghost predicate SpecNext(a: Spec, a': Spec)
  {
    exists t :: SpecStep(a, t, a')
  }

  ghost function AbsRun(run: seq<State>): (spec: seq<Spec>)
    ensures |spec| == |run| && forall i :: 0 <= i < |run| ==> spec[i] == Abs(run[i])
  {
    if run == [] then [] else AbsRun(run[..|run| - 1]) + [Abs(run[|run| - 1])]
  }

  lemma NextRefines(s: State, s': State)
    requires Inv(s) && Next(s, s')
    ensures SpecNext(Abs(s), Abs(s'))
  {
    var t :| ThreadStep(s, t, s');
    StepRefines(s, t, s');
  }

  lemma InitRefines(s: State)
    requires Init(s)
    ensures SpecInit(Abs(s))
  {
  }

  /** Linearizability: every run of the queue is, seen from outside, a run of the atomic queue. */
  lemma RunRefines(run: seq<State>)
    requires IsRun(run)
    ensures SpecInit(AbsRun(run)[0])
    ensures forall i :: 0 < i < |run| ==> SpecNext(AbsRun(run)[i - 1], AbsRun(run)[i])
  {
    InitRefines(run[0]);
    var abs := AbsRun(run);
    forall i | 0 < i < |run| ensures SpecNext(abs[i - 1], abs[i]) { RunStepRefines(run, i); }
  }

  lemma RunStepRefines(run: seq<State>, i: nat)
    requires IsRun(run) && 0 < i < |run|
    ensures SpecNext(Abs(run[i - 1]), Abs(run[i]))
  {
    RunKeeps(run, i - 1);
    NextRefines(run[i - 1], run[i]);
  }

  // ---- memory ------------------------------------------------------------------

  /** The nodes the next step of the thread dereferences. */
  function Touches(l: Local): set<Ptr>
  {
    match l.pc
    case NewNext(ct) => {ct.ptr}
    case PushNext(ot) => {ot.ptr}
    case PushLink(ot, _) => {ot.ptr}
    case PopNext(ho) => {ho.ptr}
    case PopUnlink => {l.drop}
    case PopValue => {l.take}
    case PopDrop => {l.take}
    case NewValue => {l.own}
    case NewLoad => {l.own}
    case NewStore(_) => {l.own}
    case PutLoad(_) => {l.own}
    case PutStore(_, _) => {l.own}
    case _ => {}
  }

  /** No thread ever dereferences null or memory that is not a node of this queue. */
  lemma TouchesNodes(s: State, t: Tid)
    requires Inv(s) && t in s.threads
    ensures Touches(s.threads[t]) <= s.m.nodes.Keys
  {
    assert ThreadInv(s.m, t, s.threads[t]);
  }

  /** A node reaches the pool only unlinked, with its value taken, and known to no operation that uses it. */
  lemma PooledIsFree(s: State, n: Ptr)
    requires Inv(s) && n in s.m.nodes && s.m.role[n].Pooled?
    ensures forall i :: s.m.hpos <= i < |s.m.order| ==> s.m.order[i] != n
    ensures forall t :: t in s.threads ==> n != s.threads[t].own && n != s.threads[t].take && n != s.threads[t].drop
    ensures s.m.nodes[n].value == None && s.m.nodes[n].delCount == 2 * s.m.lives[n]
  {
    assert RoleOk(s.m, n);
    forall i | s.m.hpos <= i < |s.m.order| ensures s.m.order[i] != n { assert InChain(s.m, i); }
    forall t | t in s.threads ensures n != s.threads[t].own && n != s.threads[t].take && n != s.threads[t].drop {
      assert ThreadInv(s.m, t, s.threads[t]);
    }
  }

  /**
   Each life of a node adds exactly two to try_del_count: the count is twice the
   completed lives, plus one while the life has had one of its two counts; and a
   step that completes a life finds the node unlinked, with its value taken, and
   hands it to the pool.
   */
  lemma LifeIsTwoCounts(s: State, t: Tid, s': State, n: Ptr)
    requires Inv(s) && ThreadStep(s, t, s') && n in s.m.nodes
    ensures 2 * s.m.lives[n] <= s.m.nodes[n].delCount <= 2 * s.m.lives[n] + 1
    ensures n in s'.m.nodes && n in s'.m.lives && s.m.lives[n] <= s'.m.lives[n] <= s.m.lives[n] + 1
    ensures s'.m.lives[n] > s.m.lives[n] ==>
              && s.m.role[n].Retired? && s.m.nodes[n].value == None
              && s'.m.role[n] == Owned(t) && s'.threads[t].pc == PutTop && s'.threads[t].own == n
  {
    assert RoleOk(s.m, n);
    assert ThreadInv(s.m, t, s.threads[t]);
    LifeAction(s.m, t, s.threads[t], s'.m, s'.threads[t], n);
  }

  lemma LifeAction(m: Mem, t: Tid, l: Local, m': Mem, l': Local, n: Ptr)
    requires Keys(m) && n in m.nodes && RoleOk(m, n) && Duties(m, t, l) && Shape(l) && SnapTake(m, l) && Action(m, t, l, m', l')
    ensures LivesOn(m, t, m', l', n)
  {
    if CountUnlink(m, t, l, m', l') { UnlinkLife(m, t, l, m', l', n); }
    else if CountTake(m, t, l, m', l') { TakeLife(m, t, l, m', l', n); }
    else if Link(m, l, m', l') || Swing(m, l, m', l') || Unlink(m, t, l, m', l') || TakeValue(m, l, m', l') { ChainLife(m, t, l, m', l', n); }
    else { SameLife(m, t, l, m', l', n); }
  }

  /** The node lives on, or t has just ended its life. */
  predicate LivesOn(m: Mem, t: Tid, m': Mem, l': Local, n: Ptr)
    requires Keys(m) && n in m.nodes
  {
    && n in m'.nodes && n in m'.lives && m.lives[n] <= m'.lives[n] <= m.lives[n] + 1
    && (m'.lives[n] > m.lives[n] ==>
          && m.role[n].Retired? && m.nodes[n].value == None
          && n in m'.role && m'.role[n] == Owned(t) && l'.pc == PutTop && l'.own == n)
  }

  lemma UnlinkLife(m: Mem, t: Tid, l: Local, m': Mem, l': Local, n: Ptr)
    requires Keys(m) && n in m.nodes && RoleOk(m, n) && Duties(m, t, l) && Shape(l) && CountUnlink(m, t, l, m', l')
    ensures LivesOn(m, t, m', l', n)
  {}

  lemma TakeLife(m: Mem, t: Tid, l: Local, m': Mem, l': Local, n: Ptr)
    requires Keys(m) && n in m.nodes && RoleOk(m, n) && Duties(m, t, l) && Shape(l) && SnapTake(m, l) && CountTake(m, t, l, m', l')
    ensures LivesOn(m, t, m', l', n)
  {}

  /** No other action counts. */
  lemma ChainLife(m: Mem, t: Tid, l: Local, m': Mem, l': Local, n: Ptr)
    requires Keys(m) && n in m.nodes
    requires Link(m, l, m', l') || Swing(m, l, m', l') || Unlink(m, t, l, m', l') || TakeValue(m, l, m', l')
    ensures n in m'.nodes && n in m'.lives && m'.lives[n] == m.lives[n]
  {}

  lemma SameLife(m: Mem, t: Tid, l: Local, m': Mem, l': Local, n: Ptr)
    requires Keys(m) && n in m.nodes
    requires m' == m || PoolPop(m, t, l, m', l') || PoolPush(m, l, m', l') || OwnWrite(m, l, m', l') || Alloc(m, t, l, m', l')
    ensures n in m'.nodes && n in m'.lives && m'.lives[n] == m.lives[n]
  {}

  // ---- destruction ------------------------------------------------------------------

  /** ps is the list hanging off `from`. */
  predicate IsList(nodes: map<Ptr, Node>, from: Ptr, ps: seq<Ptr>)
    decreases |ps|
  {
    if ps == [] then from == 0
    else from != 0 && ps[0] == from && from in nodes && IsList(nodes, nodes[from].next.ptr, ps[1..])
  }

  /** The loop of ~LockFreeQueue and of ~LockFreePool: delete the list that starts at `from`. */
  method DeleteList(nodes: map<Ptr, Node>, from: Ptr, ghost ps: seq<Ptr>) returns (deleted: seq<Ptr>)
    requires IsList(nodes, from, ps)
    ensures deleted == ps
  {
    var cur := from;
    deleted := [];
    ghost var rest := ps;
    while cur != 0
      invariant IsList(nodes, cur, rest) && deleted + rest == ps
      decreases rest
    {
      var next := nodes[cur].next.ptr;
      deleted := deleted + [cur];
      rest := rest[1..];
      cur := next;
    }
  }

  lemma {:induction false} ChainIsList(m: Mem, i: nat)
    requires MemInv(m) && m.hpos <= i < |m.order|
    ensures IsList(m.nodes, m.order[i], m.order[i..])
    decreases |m.order| - i
  {
    assert InChain(m, i);
    assert m.order[i..][1..] == m.order[i + 1..];
    if i + 1 < |m.order| { ChainIsList(m, i + 1); }
  }

  function Reverse(ps: seq<Ptr>): (r: seq<Ptr>)
    ensures multiset(r) == multiset(ps)
  {
    if ps == [] then [] else assert ps == ps[..|ps| - 1] + [ps[|ps| - 1]]; [ps[|ps| - 1]] + Reverse(ps[..|ps| - 1])
  }

  lemma {:induction false} PoolIsList(m: Mem, k: nat)
    requires MemInv(m) && k <= |m.pool|
    ensures IsList(m.nodes, if k == 0 then 0 else m.pool[k - 1], Reverse(m.pool[..k]))
  {
    if k > 0 {
      assert InPool(m, k - 1);
      PoolIsList(m, k - 1);
      assert m.pool[..k][..k - 1] == m.pool[..k - 1];
    }
  }

  predicate Distinct(a: seq<Ptr>)
  {
    forall i, j :: 0 <= i < j < |a| ==> a[i] != a[j]
  }

  lemma ChainsApart(m: Mem)
    requires MemInv(m)
    ensures Distinct(m.order[m.hpos..]) && Distinct(m.pool)
    ensures forall i, j :: m.hpos <= i < |m.order| && 0 <= j < |m.pool| ==> m.order[i] != m.pool[j]
  {
    forall i, j | m.hpos <= i < j < |m.order| ensures m.order[i] != m.order[j] { assert InChain(m, i) && InChain(m, j); }
    forall i, j | 0 <= i < j < |m.pool| ensures m.pool[i] != m.pool[j] { assert InPool(m, i) && InPool(m, j); }
    forall i, j | m.hpos <= i < |m.order| && 0 <= j < |m.pool| ensures m.order[i] != m.pool[j] { assert InChain(m, i) && InPool(m, j); }
  }

  /** An idle thread answers for no node. */
  lemma NotOfIdle(m: Mem, t: Tid, l: Local, n: Ptr)
    requires Keys(m) && n in m.nodes && ThreadInv(m, t, l) && l.pc == Idle
    ensures TakerOf(m.role[n]) != Some(t) && UnlinkerOf(m.role[n]) != Some(t) && m.role[n] != Owned(t)
  {
    assert NamesAt(m, t, l, n);
  }

  lemma QuietRole(s: State, n: Ptr)
    requires Inv(s) && (forall t :: t in s.threads ==> s.threads[t].pc == Idle) && n in s.m.nodes
    ensures s.m.role[n].Chained? || s.m.role[n].Pooled?
  {
    var r := s.m.role[n];
    assert RoleOk(s.m, n) && Known(r, s.threads.Keys);
    if TakerOf(r).Some? { NotOfIdle(s.m, TakerOf(r).value, s.threads[TakerOf(r).value], n); }
    if UnlinkerOf(r).Some? { NotOfIdle(s.m, UnlinkerOf(r).value, s.threads[UnlinkerOf(r).value], n); }
    if r.Owned? { NotOfIdle(s.m, r.t, s.threads[r.t], n); }
  }

  /** With no operation running, a node is in the chain or in the pool. */
  lemma QuietNode(s: State, n: Ptr)
    requires Inv(s) && (forall t :: t in s.threads ==> s.threads[t].pc == Idle) && n in s.m.nodes
    ensures n in s.m.order[s.m.hpos..] || n in s.m.pool
  {
    var m, r := s.m, s.m.role[n];
    QuietRole(s, n);
    assert RoleOk(m, n);
    if r.Chained? { assert m.order[m.hpos..][r.pos - m.hpos] == n; }
  }

  lemma ChainsAreNodes(m: Mem, n: Ptr)
    requires MemInv(m) && (n in m.order[m.hpos..] || n in m.pool)
    ensures n in m.nodes
  {
    if n in m.order[m.hpos..] {
      var i :| m.hpos <= i < |m.order| && m.order[i] == n;
      assert InChain(m, i);
    } else {
      var j :| 0 <= j < |m.pool| && m.pool[j] == n;
      assert InPool(m, j);
    }
  }

  /** Once no operation is running, destruction deletes every node exactly once. */
  lemma DestroyFreesAllOnce(s: State)
    requires Inv(s) && forall t :: t in s.threads ==> s.threads[t].pc == Idle
    ensures IsList(s.m.nodes, s.m.head.ptr, s.m.order[s.m.hpos..])
    ensures IsList(s.m.nodes, s.m.top.ptr, Reverse(s.m.pool))
    ensures multiset(s.m.order[s.m.hpos..]) + multiset(Reverse(s.m.pool)) == multiset(s.m.nodes.Keys)
  {
    var m := s.m;
    ChainIsList(m, m.hpos);
    assert m.pool[..|m.pool|] == m.pool;
    PoolIsList(m, |m.pool|);
    ChainsApart(m);
    forall n ensures n in m.nodes <==> n in m.order[m.hpos..] || n in m.pool {
      if n in m.nodes { QuietNode(s, n); }
      if n in m.order[m.hpos..] || n in m.pool { ChainsAreNodes(m, n); }
    }
    DistinctUnion(m.order[m.hpos..], m.pool, m.nodes.Keys);
  }

  lemma {:induction false} DistinctIsSet(a: seq<Ptr>)
    requires Distinct(a)
    ensures multiset(a) == multiset(set p | p in a)
  {
    if a != [] {
      var k := |a| - 1;
      assert a == a[..k] + [a[k]];
      DistinctIsSet(a[..k]);
      assert (set p | p in a) == (set p | p in a[..k]) + {a[k]};
    }
  }

  lemma DistinctUnion(a: seq<Ptr>, b: seq<Ptr>, ps: set<Ptr>)
    requires Distinct(a) && Distinct(b)
    requires forall i, j :: 0 <= i < |a| && 0 <= j < |b| ==> a[i] != b[j]
    requires forall n :: n in ps <==> n in a || n in b
    ensures multiset(a) + multiset(b) == multiset(ps)
  {
    DistinctIsSet(a);
    DistinctIsSet(b);
    assert ps == (set p | p in a) + (set p | p in b);
  }
}

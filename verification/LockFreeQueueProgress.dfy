/**
Push and TryPop are obstruction-free: from any reachable state, in the middle of whatever the other
threads are doing, a thread that runs alone returns within 26 of its own steps, as long as no
compare-exchange fails without cause.  It never runs out of steps before.
*/
module LockFreeQueueProgress {
  import opened LockFreeQueue
  import opened LockFreeQueueProof

  /** A weak compare-exchange fails although the word is as expected. */
  predicate Spurious(m: Mem, l: Local, m': Mem, l': Local)
  {
    match l.pc
    case NewCas(ct, _) => m.top == ct && l'.pc.NewTop?
    case PushLink(ot, on) => ot.ptr in m.nodes && m.nodes[ot.ptr].next == on && l'.pc.PushTail?
    case PushHelp(ot, _) => m.tail == ot && m' == m
    case PopCas(ho, _) => m.head == ho && l'.pc.PopHead?
    case PopHelp(to, _) => m.tail == to && m' == m
    case PutCas(ot, _) => m.top == ot && l'.pc.PutStore?
    case _ => false
  }

  // ---- how far a thread is from its return -----------------------------------------------

  function NextOf(m: Mem, n: Ptr): Stamped
  {
    if n in m.nodes then m.nodes[n].next else Stamped(0, 0)
  }

  /** The tail is one node behind. */
  predicate Lags(m: Mem)
  {
    NextOf(m, m.tail.ptr).ptr != 0
  }

  /** The queue is not empty, but the tail is still at the head. */
  predicate Behind(m: Mem)
  {
    m.head.ptr == m.tail.ptr && Lags(m)
  }

  function Rank(m: Mem, l: Local): nat
  {
    match l.pc
    case Idle => 0
      // LockFreePool::TryPop and NewNode
    case NewTop => 19
    case NewNext(ct) => if m.top == ct then 18 else 21
    case NewCas(ct, _) => if m.top == ct then 17 else 20
    case NewAlloc => 14
    case NewValue => 16
    case NewLoad => 15
    case NewStore(_) => 14
      // Push
    case PushTail => if Lags(m) then 10 else 6
    case PushNext(ot) => if m.tail != ot then 13 else if Lags(m) then 9 else 5
    case PushCheck(ot, on) => if m.tail != ot || NextOf(m, ot.ptr) != on then 12 else if Lags(m) then 8 else 4
    case PushLink(ot, on) => if NextOf(m, ot.ptr) == on then 3 else 11
    case PushHelp(ot, _) => if m.tail == ot then 7 else 11
    case PushSwing(_, _) => 2
    case PushDone => 1
      // TryPop
    case PopHead => if Behind(m) then 22 else 17
    case PopNext(ho) => if m.head != ho then 26 else if Behind(m) then 21 else 16
    case PopTail(ho, hn, _) => if m.head != ho || NextOf(m, ho.ptr) != hn then 25 else if Behind(m) then 20 else 15
    case PopCheck(ho, hn, to, _) =>
      if m.head != ho || NextOf(m, ho.ptr) != hn || m.tail != to then 24 else if Behind(m) then 19 else 14
    case PopCas(ho, _) => if m.head == ho then 13 else 23
    case PopHelp(to, _) => if m.tail == to then 18 else 23
    case PopUnlink => 12
    case PopValue => 7
    case PopDrop => 6
    case PopDone => 1
    case _ => PutRank(m, l)
  }

  /** LockFreePool::Push, in front of the rest of TryPop. */
  function PutRank(m: Mem, l: Local): nat
  {
    (if l.take != 0 then 7 else 1) +
    match l.pc
    case PutTop => 4
    case PutLoad(ot) => if m.top == ot then 3 else 5
    case PutStore(ot, _) => if m.top == ot then 2 else 4
    case PutCas(ot, _) => if m.top == ot then 1 else 3
    case _ => 0
  }

  lemma RankBound(m: Mem, l: Local)
    ensures Rank(m, l) <= 26 && (Rank(m, l) == 0 ==> l.pc.Idle?)
  {}

  /** What the words at the two ends say about the chain. */
  lemma EndsSay(m: Mem)
    requires MemInv(m)
    ensures m.head.ptr in m.nodes && m.tail.ptr in m.nodes
    ensures Lags(m) <==> |m.order| == m.tpos + 2
    ensures m.head.ptr == m.tail.ptr <==> m.hpos == m.tpos
    ensures NextOf(m, m.head.ptr).ptr == 0 ==> m.hpos == m.tpos && !Lags(m)
  {
    assert InChain(m, m.hpos) && InChain(m, m.tpos);
    if m.tpos + 1 < |m.order| { assert InChain(m, m.tpos + 1); }
    if m.hpos + 1 < |m.order| { assert InChain(m, m.hpos + 1); }
  }

  // ---- every step comes closer ---------------------------------------------------------------

  lemma ReadCloser(m: Mem, l: Local, l': Local)
    requires MemInv(m) && SnapPush(m, l) && SnapPop(m, l) && l' == l.(pc := l'.pc) && Read(m, l, l'.pc) && !Spurious(m, l, m, l')
    ensures Rank(m, l') < Rank(m, l)
  {
    EndsSay(m);
  }

  lemma PoolCloser(m: Mem, t: Tid, l: Local, m': Mem, l': Local)
    requires PoolPop(m, t, l, m', l') || PoolPush(m, l, m', l')
    ensures Rank(m', l') < Rank(m, l)
  {}

  lemma WriteCloser(m: Mem, t: Tid, l: Local, m': Mem, l': Local)
    requires MemInv(m) && Duties(m, t, l) && Shape(l) && (OwnWrite(m, l, m', l') || Alloc(m, t, l, m', l'))
    ensures Rank(m', l') < Rank(m, l)
  {
    EndsSay(m);
  }

  lemma SwingCloser(m: Mem, t: Tid, l: Local, m': Mem, l': Local)
    requires MemInv(m) && MemInv(m') && Swing(m, l, m', l')
    ensures Rank(m', l') < Rank(m, l)
  {
    EndsSay(m');
    assert |m'.order| == |m.order| && m'.tpos == m.tpos + 1;
  }

  lemma LinkCloser(m: Mem, l: Local, m': Mem, l': Local)
    requires Link(m, l, m', l')
    ensures Rank(m', l') < Rank(m, l)
  {}

  lemma TakeCloser(m: Mem, t: Tid, l: Local, m': Mem, l': Local)
    requires Shape(l) && (Unlink(m, t, l, m', l') || CountUnlink(m, t, l, m', l') || TakeValue(m, l, m', l') || CountTake(m, t, l, m', l'))
    ensures Rank(m', l') < Rank(m, l)
  {}

  lemma StepCloser(m: Mem, t: Tid, l: Local, m': Mem, l': Local)
    requires MemInv(m) && ThreadInv(m, t, l) && Action(m, t, l, m', l') && !Spurious(m, l, m', l') && !l.pc.Idle?
    ensures Rank(m', l') < Rank(m, l)
  {
    if m' == m && l' == l.(pc := l'.pc) && Read(m, l, l'.pc) { ReadCloser(m, l, l'); }
    else if m' == m && CallReturn(l, l') {}
    else if PoolPop(m, t, l, m', l') || PoolPush(m, l, m', l') { PoolCloser(m, t, l, m', l'); }
    else if OwnWrite(m, l, m', l') || Alloc(m, t, l, m', l') { WriteCloser(m, t, l, m', l'); }
    else if Link(m, l, m', l') { LinkCloser(m, l, m', l'); }
    else if Swing(m, l, m', l') { ActionKeeps(m, t, l, m', l'); SwingCloser(m, t, l, m', l'); }
    else { TakeCloser(m, t, l, m', l'); }
  }

  // ---- there is always a step ---------------------------------------------------------------------

  lemma Fresh(s: set<Ptr>) returns (p: Ptr)
    ensures p != 0 && p !in s
  {
    var bound := Above(s);
    p := bound + 1;
  }

  lemma {:induction false} Above(s: set<Ptr>) returns (b: nat)
    ensures forall p :: p in s ==> p <= b
    decreases |s|
  {
    b := 0;
    if s != {} {
      var q :| q in s;
      b := Above(s - {q});
      assert forall p :: p in s ==> p == q || p in s - {q};
      if b < q { b := q; }
    }
  }

  ghost predicate Goes(m: Mem, t: Tid, l: Local, m': Mem, l': Local)
  {
    Action(m, t, l, m', l') && !Spurious(m, l, m', l')
  }

  predicate OnlyReads(pc: Pc)
  {
    || pc.NewTop? || pc.NewNext? || pc.NewLoad? || pc.PushTail? || pc.PushNext? || pc.PushCheck? || pc.PushSwing?
    || pc.PopHead? || pc.PopNext? || pc.PopTail? || pc.PopCheck? || pc.PutTop? || pc.PutLoad?
  }

  lemma ReadGoes(m: Mem, t: Tid, l: Local) returns (l': Local)
    requires MemInv(m) && ThreadInv(m, t, l) && OnlyReads(l.pc)
    ensures Goes(m, t, l, m, l')
  {
    if l.pc.PopHead? || l.pc.PopNext? || l.pc.PopTail? || l.pc.PopCheck? { l' := PopReads(m, l); }
    else if l.pc.PushTail? || l.pc.PushNext? || l.pc.PushCheck? || l.pc.PushSwing? { l' := PushReads(m, l); }
    else { l' := PoolReads(m, l); }
  }

  ghost predicate Reads(m: Mem, l: Local, l': Local)
  {
    l' == l.(pc := l'.pc) && Read(m, l, l'.pc)
  }

  lemma PopReads(m: Mem, l: Local) returns (l': Local)
    requires SnapPop(m, l) && (l.pc.PopHead? || l.pc.PopNext? || l.pc.PopTail? || l.pc.PopCheck?)
    ensures Reads(m, l, l')
  {
    match l.pc
    case PopHead => l' := l.(pc := PopNext(m.head));
    case PopNext(ho) => l' := l.(pc := PopTail(ho, m.nodes[ho.ptr].next, m.hpos == |m.enq|));
    case PopTail(ho, hn, e) => l' := l.(pc := PopCheck(ho, hn, m.tail, e));
    case PopCheck(ho, hn, to, e) =>
      l' := l.(pc := if m.head != ho then PopHead
                     else if hn.ptr == 0 then (if ho.ptr != to.ptr then PopHead else PopDone)
                     else if ho.ptr != to.ptr then PopCas(ho, hn)
                     else PopHelp(to, hn));
  }

  lemma PushReads(m: Mem, l: Local) returns (l': Local)
    requires SnapPush(m, l) && (l.pc.PushTail? || l.pc.PushNext? || l.pc.PushCheck? || l.pc.PushSwing?)
    ensures Reads(m, l, l')
  {
    match l.pc
    case PushTail => l' := l.(pc := PushNext(m.tail));
    case PushNext(ot) => l' := l.(pc := PushCheck(ot, m.nodes[ot.ptr].next));
    case PushCheck(ot, on) =>
      l' := l.(pc := if ot != m.tail then PushTail else if on.ptr == 0 then PushLink(ot, on) else PushHelp(ot, on));
    case PushSwing(_, _) => l' := l.(pc := PushDone);
  }

  lemma PoolReads(m: Mem, l: Local) returns (l': Local)
    requires SnapNew(m, l) && SnapPut(m, l) && (l.pc.NewTop? || l.pc.NewNext? || l.pc.NewLoad? || l.pc.PutTop? || l.pc.PutLoad?)
    ensures Reads(m, l, l')
  {
    match l.pc
    case NewTop => l' := l.(pc := if m.top.ptr == 0 then NewAlloc else NewNext(m.top));
    case NewNext(ct) => l' := l.(pc := NewCas(ct, m.nodes[ct.ptr].next));
    case NewLoad => l' := l.(pc := NewStore(m.nodes[l.own].next.stamp));
    case PutTop => l' := l.(pc := PutLoad(m.top));
    case PutLoad(ot) => l' := l.(pc := PutStore(ot, m.nodes[l.own].next.stamp));
  }

  lemma WriteGoes(m: Mem, t: Tid, l: Local) returns (m': Mem, l': Local)
    requires MemInv(m) && ThreadInv(m, t, l) && (l.pc.NewAlloc? || l.pc.NewValue? || l.pc.NewStore? || l.pc.PutStore?)
    ensures Goes(m, t, l, m', l')
  {
    if l.pc.NewAlloc? {
      var p := Fresh(m.nodes.Keys);
      l' := l.(pc := PushTail, own := p);
      m' := SetNode(m, p, Node(Some(l.val), Stamped(0, 0), 0)).(role := m.role[p := Owned(t)], lives := m.lives[p := 0]);
      assert Alloc(m, t, l, m', l');
    } else {
      var node := m.nodes[l.own];
      match l.pc
      case NewValue => l', m' := l.(pc := NewLoad), SetNode(m, l.own, node.(value := Some(l.val)));
      case NewStore(st) => l', m' := l.(pc := PushTail), SetNode(m, l.own, node.(next := Stamped(0, st + 1)));
      case PutStore(ot, st) => l', m' := l.(pc := PutCas(ot, st)), SetNode(m, l.own, node.(next := Stamped(ot.ptr, st + 1)));
      assert OwnWrite(m, l, m', l');
    }
  }

  lemma NewCasGoes(m: Mem, t: Tid, l: Local) returns (m': Mem, l': Local)
    requires l.pc.NewCas?
    ensures Goes(m, t, l, m', l')
  {
    var NewCas(ct, nx) := l.pc;
    if m.top == ct {
      l' := l.(pc := NewValue, own := ct.ptr);
      m' := m.(top := Stamped(nx.ptr, ct.stamp + 1), pool := DropLast(m.pool), role := m.role[ct.ptr := Owned(t)]);
      assert PoolPop(m, t, l, m', l');
    } else {
      m', l' := m, l.(pc := NewTop);
    }
  }

  lemma PutCasGoes(m: Mem, t: Tid, l: Local) returns (m': Mem, l': Local)
    requires l.pc.PutCas?
    ensures Goes(m, t, l, m', l')
  {
    var PutCas(ot, st) := l.pc;
    if m.top == ot {
      l' := l.(pc := if l.take != 0 then PopValue else PopDone, own := 0);
      m' := m.(top := Stamped(l.own, ot.stamp + 1), pool := m.pool + [l.own], role := m.role[l.own := Pooled(|m.pool|)]);
      assert PoolPush(m, l, m', l');
    } else {
      m', l' := m, l.(pc := PutStore(m.top, st));
    }
  }

  lemma PushGoes(m: Mem, t: Tid, l: Local) returns (m': Mem, l': Local)
    requires MemInv(m) && ThreadInv(m, t, l) && (l.pc.PushLink? || l.pc.PushHelp?)
    ensures Goes(m, t, l, m', l')
  {
    match l.pc
    case PushLink(ot, on) =>
      if m.nodes[ot.ptr].next == on {
        l' := l.(pc := PushSwing(ot, l.own), own := 0);
        m' := SetNode(m, ot.ptr, m.nodes[ot.ptr].(next := Stamped(l.own, on.stamp + 1))).(
                order := m.order + [l.own], enq := m.enq + [l.val], role := m.role[l.own := Chained(|m.order|, None)]);
        assert Link(m, l, m', l');
      } else {
        m', l' := m, l.(pc := PushTail);
      }
    case PushHelp(ot, on) =>
      l' := l.(pc := PushTail);
      m' := if m.tail == ot then SetTail(m, on.ptr) else m;
      if m.tail == ot { assert Swing(m, l, m', l'); }
  }

  lemma PopGoes(m: Mem, t: Tid, l: Local) returns (m': Mem, l': Local)
    requires l.pc.PopCas? || l.pc.PopHelp?
    ensures Goes(m, t, l, m', l')
  {
    match l.pc
    case PopCas(ho, hn) =>
      if m.head == ho {
        l' := l.(pc := PopUnlink, drop := ho.ptr, take := hn.ptr, val := FirstOf(m.enq, m.hpos));
        m' := m.(head := Stamped(hn.ptr, ho.stamp + 1), hpos := m.hpos + 1,
                 role := m.role[ho.ptr := Retired(TakerOf(RoleOf(m, ho.ptr)), Some(t))]
                               [hn.ptr := WithTaker(RoleOf(m, hn.ptr), Some(t))]);
        assert Unlink(m, t, l, m', l');
      } else {
        m', l' := m, l.(pc := PopHead);
      }
    case PopHelp(to, hn) =>
      l' := l.(pc := PopHead);
      m' := if m.tail == to then SetTail(m, hn.ptr) else m;
      if m.tail == to { assert Swing(m, l, m', l'); }
  }

  lemma TakeGoes(m: Mem, t: Tid, l: Local) returns (m': Mem, l': Local)
    requires MemInv(m) && ThreadInv(m, t, l) && Taking(l.pc)
    ensures Goes(m, t, l, m', l')
  {
    match l.pc
    case PopUnlink =>
      m' := Count(m, l.drop, t, Retired(TakerOf(RoleOf(m, l.drop)), None));
      l' := if m.nodes[l.drop].delCount % 2 == 1 then l.(pc := PutTop, own := l.drop, drop := 0) else l.(pc := PopValue, drop := 0);
      assert CountUnlink(m, t, l, m', l');
    case PopValue =>
      m' := SetNode(m, l.take, m.nodes[l.take].(value := None));
      l' := l.(pc := PopDrop, ret := m.nodes[l.take].value);
      assert TakeValue(m, l, m', l');
    case PopDrop =>
      m' := Count(m, l.take, t, WithTaker(RoleOf(m, l.take), None));
      l' := if m.nodes[l.take].delCount % 2 == 1 then l.(pc := PutTop, own := l.take, take := 0) else l.(pc := PopDone, take := 0);
      assert CountTake(m, t, l, m', l');
  }

  /** No thread is ever stuck inside a call. */
  lemma AlwaysGoes(m: Mem, t: Tid, l: Local) returns (m': Mem, l': Local)
    requires MemInv(m) && ThreadInv(m, t, l) && !l.pc.Idle?
    ensures Goes(m, t, l, m', l')
  {
    if OnlyReads(l.pc) { l' := ReadGoes(m, t, l); m' := m; }
    else if l.pc.NewAlloc? || l.pc.NewValue? || l.pc.NewStore? || l.pc.PutStore? { m', l' := WriteGoes(m, t, l); }
    else if l.pc.NewCas? { m', l' := NewCasGoes(m, t, l); }
    else if l.pc.PutCas? { m', l' := PutCasGoes(m, t, l); }
    else if l.pc.PushLink? || l.pc.PushHelp? { m', l' := PushGoes(m, t, l); }
    else if l.pc.PopCas? || l.pc.PopHelp? { m', l' := PopGoes(m, t, l); }
    else if Taking(l.pc) { m', l' := TakeGoes(m, t, l); }
    else { m', l' := m, Rest(); }
  }

  // ---- runs --------------------------------------------------------------------------------------------

  predicate Inside(s: State, t: Tid)
  {
    t in s.threads && !s.threads[t].pc.Idle?
  }

  /** A step of t, which is inside a call, without a spurious failure. */
  ghost predicate SoloStep(s: State, t: Tid, s': State)
  {
    Inside(s, t) && ThreadStep(s, t, s') && !Spurious(s.m, s.threads[t], s'.m, s'.threads[t])
  }

  ghost predicate CanGo(s: State, t: Tid)
  {
    exists s' :: SoloStep(s, t, s')
  }

  /** t runs alone, and is inside a call in all states but perhaps the last. */
  ghost predicate Alone(states: seq<State>, t: Tid)
  {
    |states| > 0 && t in states[0].threads && forall i :: 0 <= i < |states| - 1 ==> SoloStep(states[i], t, states[i + 1])
  }

  lemma SoloCloser(s: State, t: Tid, s': State)
    requires Inv(s) && SoloStep(s, t, s')
    ensures Inv(s') && Rank(s'.m, s'.threads[t]) < Rank(s.m, s.threads[t])
  {
    StepKeeps(s, t, s');
    assert ThreadInv(s.m, t, s.threads[t]);
    StepCloser(s.m, t, s.threads[t], s'.m, s'.threads[t]);
  }

  lemma {:induction false} RankFalls(states: seq<State>, t: Tid, i: nat)
    requires Alone(states, t) && Inv(states[0]) && i < |states|
    ensures Inv(states[i]) && t in states[i].threads && Rank(states[i].m, states[i].threads[t]) + i <= 26
  {
    if i == 0 {
      RankBound(states[0].m, states[0].threads[t]);
    } else {
      RankFalls(states, t, i - 1);
      assert SoloStep(states[i - 1], t, states[i]);
      SoloCloser(states[i - 1], t, states[i]);
    }
  }

  lemma SoloGoes(s: State, t: Tid) returns (s': State)
    requires Inv(s) && Inside(s, t)
    ensures SoloStep(s, t, s')
  {
    assert ThreadInv(s.m, t, s.threads[t]);
    var m', l' := AlwaysGoes(s.m, t, s.threads[t]);
    s' := State(m', s.threads[t := l']);
  }

  /** From any state of any run, a thread inside a call that runs alone returns within 26 steps, and always has a next one before. */
  lemma ReturnsAlone(run: seq<State>, n: nat, states: seq<State>, t: Tid)
    requires IsRun(run) && n < |run| && Alone(states, t) && states[0] == run[n]
    ensures |states| <= 27 && (|states| == 27 ==> !Inside(states[26], t))
    ensures Inside(states[|states| - 1], t) ==> CanGo(states[|states| - 1], t)
  {
    RunKeeps(run, n);
    var last := |states| - 1;
    RankFalls(states, t, last);
    RankBound(states[last].m, states[last].threads[t]);
    if Inside(states[last], t) { var s' := SoloGoes(states[last], t); }
  }
}

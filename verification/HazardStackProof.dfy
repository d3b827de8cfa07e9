/**
What every step of the stack and of the hazard-pointer scheme keeps.
*/
module HazardStackProof {
  import opened HazardStack

  // ---- memory -------------------------------------------------------------------------

  predicate InOrder(m: Mem, i: nat)
    requires i < |m.order|
  {
    && m.order[i] in m.nodes && m.nodes[m.order[i]].status.Linked?
    && m.nodes[m.order[i]].next == (if i + 1 < |m.order| then m.order[i + 1] else 0)
  }

  predicate Chained(m: Mem)
  {
    && m.top == (if m.order == [] then 0 else m.order[0])
    && (forall i {:trigger InOrder(m, i)} :: 0 <= i < |m.order| ==> InOrder(m, i))
    && (forall i, j :: 0 <= i < j < |m.order| ==> m.order[i] != m.order[j])
  }

  predicate Placed(m: Mem, a: Addr)
    requires a in m.nodes
  {
    && a != 0
    && (m.nodes[a].status.Linked? ==> a in m.order)
    && (m.nodes[a].status.Retired? ==> m.nodes[a].status.u < |m.retired| && a in m.retired[m.nodes[a].status.u])
  }

  predicate RetiredOk(m: Mem, u: nat)
    requires u < |m.retired|
  {
    && (forall i :: 0 <= i < |m.retired[u]| ==> m.retired[u][i] in m.nodes && m.nodes[m.retired[u][i]].status == Retired(u))
    && (forall i, j :: 0 <= i < j < |m.retired[u]| ==> m.retired[u][i] != m.retired[u][j])
  }

  predicate MemInv(m: Mem)
  {
    && |m.slots| == SLOTS && |m.retired| == MAX_THREADS
    && Chained(m)
    && (forall a {:trigger Placed(m, a)} :: a in m.nodes ==> Placed(m, a))
    && (forall u {:trigger RetiredOk(m, u)} :: 0 <= u < |m.retired| ==> RetiredOk(m, u))
  }

  // ---- threads -------------------------------------------------------------------------

  /** The node that the thread has protected and validated, or 0. */
  function Guarded(l: Local): Addr
  {
    match l.pc
    case PopNext(obj) => obj
    case PopCas(obj, _) => obj
    case PopValue(obj) => obj
    case PopRetire(obj, _) => obj
    case Scan(_, _, obj, _) => obj
    case Sweep(_, _, obj, _) => obj
    case PopReset(obj, _) => obj
    case _ => 0
  }

  predicate InPop(pc: Pc)
  {
    !pc.Idle? && !pc.Aborted? && !pc.PushLoad? && !pc.PushCas? && !pc.PopIndex?
  }

  predicate Shape(m: Mem, l: Local)
  {
    && (l.idx.Some? ==> l.idx.value < m.nextIdx && (l.idx.value < MAX_THREADS || l.pc.Aborted?))
    && (l.idx.None? ==> !InPop(l.pc))
    && (l.pc.PopIndex? ==> l.idx.None?)
  }

  predicate Safe(m: Mem, l: Local)
  {
    var a := Guarded(l);
    a != 0 ==>
      && l.idx.Some? && SlotOf(l.idx.value) < |m.slots| && m.slots[SlotOf(l.idx.value)] == a
      && a in m.nodes && !m.nodes[a].status.Private?
  }

  predicate Knows(m: Mem, t: nat, l: Local)
  {
    match l.pc
    case PushLoad(n) => n != 0 && n in m.nodes && m.nodes[n].status == Private(t) && l.val == Some(m.nodes[n].value)
    case PushCas(n) => n != 0 && n in m.nodes && m.nodes[n].status == Private(t) && l.val == Some(m.nodes[n].value)
    case PopCheck(obj) => l.idx.Some? && SlotOf(l.idx.value) < |m.slots| && m.slots[SlotOf(l.idx.value)] == obj
    case PopNext(obj) => obj != 0
    case PopCas(obj, next) => obj != 0 && (obj in m.nodes ==> m.nodes[obj].next == next)
    case PopValue(obj) => obj in m.nodes && obj != 0 && m.nodes[obj].status == Popped(t) && l.val == Some(m.nodes[obj].value)
    case PopRetire(obj, v) => obj in m.nodes && obj != 0 && m.nodes[obj].status == Popped(t) && l.val == Some(v)
    case Scan(k, h, obj, v) => obj != 0 && l.val == Some(v)
    case Sweep(i, h, obj, v) => obj != 0 && l.val == Some(v)
    case PopReset(obj, v) => obj != 0 && l.val == Some(v)
    case PopDrop(r) => r.Some? ==> l.val == r
    case _ => true
  }

  /** What the scan of lu has collected about the node that lt protects. */
  predicate Collected(m: Mem, lt: Local, lu: Local)
  {
    var a := Guarded(lt);
    a != 0 && lt.idx.Some? && lu.idx.Some? && lu.idx.value < |m.retired| && a in m.retired[lu.idx.value] ==>
      && (lu.pc.Scan? && SlotOf(lt.idx.value) < lu.pc.k ==> a in lu.pc.hazards)
      && (lu.pc.Sweep? ==> a in lu.pc.hazards)
  }

  predicate ThreadInv(m: Mem, t: nat, l: Local)
  {
    Shape(m, l) && Safe(m, l) && Knows(m, t, l) && Collected(m, l, l)
  }

  predicate PairOk(m: Mem, l: Local, k: Local)
  {
    (l.idx.Some? ==> l.idx != k.idx) && Collected(m, l, k)
  }

  ghost predicate Inv(s: State)
  {
    && MemInv(s.m)
    && (forall t {:trigger ThreadInv(s.m, t, s.threads[t])} :: 0 <= t < |s.threads| ==> ThreadInv(s.m, t, s.threads[t]))
    && (forall t, u {:trigger PairOk(s.m, s.threads[t], s.threads[u])} ::
          0 <= t < |s.threads| && 0 <= u < |s.threads| && t != u ==> PairOk(s.m, s.threads[t], s.threads[u]))
  }

  // ---- what a step of thread t may do to the others --------------------------------------------

  /** The address that the step frees, or 0. */
  function Freed(m: Mem, l: Local, m': Mem): Addr
  {
    if l.pc.Sweep? && l.idx.Some? && l.idx.value < |m.retired| && l.pc.i < |m.retired[l.idx.value]| && m' != m then
      m.retired[l.idx.value][l.pc.i]
    else 0
  }

  predicate FreesRetired(m: Mem, l: Local, m': Mem)
  {
    var f := Freed(m, l, m');
    f != 0 ==> f in m.nodes && m.nodes[f].status.Retired? && f !in l.pc.hazards && f in m.retired[l.idx.value]
  }

  predicate KeepsNode(m: Mem, m': Mem, t: nat, a: Addr)
    requires a in m.nodes
  {
    var s := m.nodes[a].status;
    && a in m'.nodes
    && ((s.Private? || s.Popped?) && s.t != t ==> m'.nodes[a] == m.nodes[a])
    && (!s.Private? ==> m'.nodes[a].next == m.nodes[a].next && m'.nodes[a].value == m.nodes[a].value && !m'.nodes[a].status.Private?)
  }

  /** Nodes stay unless they are freed; slots and retired lists of others are left alone. */
  predicate Env(m: Mem, m': Mem, t: nat, l: Local, l': Local)
  {
    && (forall a {:trigger KeepsNode(m, m', t, a)} :: a in m.nodes && a != Freed(m, l, m') ==> KeepsNode(m, m', t, a))
    && |m'.slots| == |m.slots| && |m'.retired| == |m.retired| && m.nextIdx <= m'.nextIdx
    && (forall k :: 0 <= k < |m.slots| && !(l.idx.Some? && k == SlotOf(l.idx.value)) ==> m'.slots[k] == m.slots[k])
    && (forall k :: 0 <= k < |m.retired| && l.idx != Some(k) ==> m'.retired[k] == m.retired[k])
    && (l'.idx == l.idx || (l.idx.None? && l'.idx == Some(m.nextIdx) && m.nextIdx < m'.nextIdx))
  }

  lemma Stable(m: Mem, m': Mem, t: nat, l: Local, l': Local, u: nat, k: Local)
    requires Env(m, m', t, l, l') && ThreadInv(m, u, k) && u != t && (k.idx.Some? ==> k.idx != l.idx)
    requires Guarded(k) != 0 ==> Guarded(k) != Freed(m, l, m')
    requires FreesRetired(m, l, m')
    ensures ThreadInv(m', u, k)
  {
    var a := Guarded(k);
    if a != 0 { assert KeepsNode(m, m', t, a); }
    if k.pc.PushLoad? || k.pc.PushCas? { assert KeepsNode(m, m', t, k.pc.n); }
  }

  // ---- the steps, one by one ------------------------------------------------------------------------

  /** Everything a step of thread t has to establish, apart from pairs of threads. */
  predicate Kept(m: Mem, t: nat, l: Local, m': Mem, l': Local)
  {
    MemInv(m') && ThreadInv(m', t, l') && Env(m, m', t, l, l')
  }

  /** Steps that leave the nodes alone. */
  lemma QuietKeeps(m: Mem, t: nat, l: Local, m': Mem, l': Local)
    requires MemInv(m) && ThreadInv(m, t, l)
    requires StartPop(m, t, l, m', l') || IndexStep(m, t, l, m', l') || LoadStep(m, t, l, m', l') || SetStep(m, t, l, m', l')
             || NextStep(m, t, l, m', l') || ValueStep(m, t, l, m', l') || ScanStep(m, t, l, m', l')
             || ResetStep(m, t, l, m', l') || DropStep(m, t, l, m', l')
    ensures Kept(m, t, l, m', l')
  {
    SameNodes(m, m');
    forall a | a in m.nodes ensures KeepsNode(m, m', t, a) {}
  }

  lemma SameNodes(m: Mem, m': Mem)
    requires MemInv(m) && m' == m.(slots := m'.slots, nextIdx := m'.nextIdx) && |m'.slots| == SLOTS
    ensures MemInv(m')
  {
    forall i | 0 <= i < |m'.order| ensures InOrder(m', i) { assert InOrder(m, i); }
    forall a | a in m'.nodes ensures Placed(m', a) { assert Placed(m, a); }
    forall u | 0 <= u < |m'.retired| ensures RetiredOk(m', u) { assert RetiredOk(m, u); }
  }

  /** The validating load: what is at the top of the stack has not been retired. */
  lemma CheckKeeps(m: Mem, t: nat, l: Local, m': Mem, l': Local)
    requires MemInv(m) && ThreadInv(m, t, l) && CheckStep(m, t, l, m', l')
    ensures Kept(m, t, l, m', l')
  {
    forall a | a in m.nodes ensures KeepsNode(m, m', t, a) {}
    if m.top != 0 { assert InOrder(m, 0); }
  }

  /** A node outside stack and retired lists changes, and stays outside. */
  lemma PrivateKeeps(m: Mem, m': Mem, n: Addr, x: Node)
    requires MemInv(m) && m' == Put(m, n, x) && n != 0 && x.status.Private?
    requires n in m.nodes ==> m.nodes[n].status.Private?
    ensures MemInv(m')
  {
    forall i | 0 <= i < |m'.order| ensures InOrder(m', i) { assert InOrder(m, i); }
    forall a | a in m'.nodes ensures Placed(m', a) { if a != n { assert Placed(m, a); } }
    forall u | 0 <= u < |m'.retired| ensures RetiredOk(m', u) { assert RetiredOk(m, u); }
  }

  lemma PushKeeps(m: Mem, t: nat, l: Local, m': Mem, l': Local)
    requires MemInv(m) && ThreadInv(m, t, l) && m'.top == m.top
    requires StartPush(m, t, l, m', l') || PushLoadStep(m, t, l, m', l') || (PushCasStep(m, t, l, m', l') && l' == l)
    ensures Kept(m, t, l, m', l')
  {
    if StartPush(m, t, l, m', l') {
      var n, v :| n != 0 && n !in m.nodes && m' == Put(m, n, Node(0, v, Private(t))) && l' == l.(pc := PushLoad(n), val := Some(v));
      PrivateKeeps(m, m', n, Node(0, v, Private(t)));
    } else {
      assert Placed(m, l.pc.n);
      PrivateKeeps(m, m', l.pc.n, m.nodes[l.pc.n].(next := m.top));
    }
    forall a | a in m.nodes ensures KeepsNode(m, m', t, a) {}
  }

  lemma LinkKeeps(m: Mem, t: nat, l: Local, m': Mem, l': Local)
    requires MemInv(m) && ThreadInv(m, t, l) && PushCasStep(m, t, l, m', l') && l' != l
    ensures Kept(m, t, l, m', l')
  {
    var n := l.pc.n;
    assert Placed(m, n);
    assert forall i :: 0 <= i < |m.order| ==> m.order[i] != n by { forall i | 0 <= i < |m.order| ensures m.order[i] != n { assert InOrder(m, i); } }
    forall i | 0 <= i < |m'.order| ensures InOrder(m', i) { if i > 0 { assert InOrder(m, i - 1); } }
    forall a | a in m'.nodes ensures Placed(m', a) { assert Placed(m, a); if a in m.order { assert a in m'.order; } assert n == m'.order[0]; }
    forall u | 0 <= u < |m'.retired| ensures RetiredOk(m', u) { assert RetiredOk(m, u); }
    forall a | a in m.nodes ensures KeepsNode(m, m', t, a) {}
  }

  /** The node at the top is still the one that was protected, with the same successor: no ABA. */
  lemma PopKeeps(m: Mem, t: nat, l: Local, m': Mem, l': Local)
    requires MemInv(m) && ThreadInv(m, t, l) && PopCasStep(m, t, l, m', l')
    ensures Kept(m, t, l, m', l')
  {
    if l'.pc.PopValue? {
      var a := m.top;
      assert a == m.order[0];
      assert InOrder(m, 0);
      forall i | 0 <= i < |m'.order| ensures InOrder(m', i) { assert InOrder(m, i + 1); }
      forall b | b in m'.nodes ensures Placed(m', b) {
        assert Placed(m, b);
        if b in m.order && b != a { var i :| 0 <= i < |m.order| && m.order[i] == b; assert m'.order[i - 1] == b; }
      }
      forall u | 0 <= u < |m'.retired| ensures RetiredOk(m', u) { assert RetiredOk(m, u); }
    }
    forall b | b in m.nodes ensures KeepsNode(m, m', t, b) {}
  }

  lemma RetireKeeps(m: Mem, t: nat, l: Local, m': Mem, l': Local)
    requires MemInv(m) && ThreadInv(m, t, l) && RetireStep(m, t, l, m', l')
    ensures Kept(m, t, l, m', l')
  {
    var n, u := l.pc.obj, l.idx.value;
    assert Placed(m, n);
    forall i | 0 <= i < |m'.order| ensures InOrder(m', i) { assert InOrder(m, i); }
    forall a | a in m'.nodes ensures Placed(m', a) {
      assert Placed(m, a);
      if a == n { assert m'.retired[u][|m.retired[u]|] == n; }
    }
    forall v | 0 <= v < |m'.retired| ensures RetiredOk(m', v) { assert RetiredOk(m, v); }
    forall a | a in m.nodes ensures KeepsNode(m, m', t, a) {}
  }

  lemma SwapRemoves(r: seq<Addr>, i: nat)
    requires i < |r| && forall j, k :: 0 <= j < k < |r| ==> r[j] != r[k]
    ensures var x := SwapRemove(r, i);
            && (forall a :: a in x <==> a in r && a != r[i])
            && (forall j, k :: 0 <= j < k < |x| ==> x[j] != x[k])
  {
    var x := SwapRemove(r, i);
    forall a | a in r && a != r[i] ensures a in x {
      var j :| 0 <= j < |r| && r[j] == a;
      if j == |r| - 1 { assert x[i] == a; } else { assert x[j] == a; }
    }
  }

  lemma SweepKeeps(m: Mem, t: nat, l: Local, m': Mem, l': Local)
    requires MemInv(m) && ThreadInv(m, t, l) && SweepStep(m, t, l, m', l')
    ensures Kept(m, t, l, m', l')
    ensures FreesRetired(m, l, m')
  {
    var u, i := l.idx.value, l.pc.i;
    if m' != m {
      var f, r := m.retired[u][i], m.retired[u];
      assert RetiredOk(m, u);
      SwapRemoves(r, i);
      forall j | 0 <= j < |m'.order| ensures InOrder(m', j) { assert InOrder(m, j); if j + 1 < |m.order| { assert InOrder(m, j + 1); } }
      forall a | a in m'.nodes ensures Placed(m', a) { assert Placed(m, a); }
      forall v | 0 <= v < |m'.retired| ensures RetiredOk(m', v) {
        assert RetiredOk(m, v);
        if v == u { forall j | 0 <= j < |m'.retired[u]| ensures m'.retired[u][j] in r && m'.retired[u][j] != f { assert m'.retired[u][j] in m'.retired[u]; } }
      }
    } else {
      if i < |m.retired[u]| { assert RetiredOk(m, u); }
    }
    forall a | a in m.nodes && a != Freed(m, l, m') ensures KeepsNode(m, m', t, a) {}
  }

  lemma ActionKeeps(m: Mem, t: nat, l: Local, m': Mem, l': Local)
    requires MemInv(m) && ThreadInv(m, t, l) && Action(m, t, l, m', l')
    ensures Kept(m, t, l, m', l') && FreesRetired(m, l, m')
  {
    if {
      case CheckStep(m, t, l, m', l') => CheckKeeps(m, t, l, m', l');
      case StartPush(m, t, l, m', l') => PushKeeps(m, t, l, m', l');
      case PushLoadStep(m, t, l, m', l') => PushKeeps(m, t, l, m', l');
      case PushCasStep(m, t, l, m', l') => if l' == l { PushKeeps(m, t, l, m', l'); } else { LinkKeeps(m, t, l, m', l'); }
      case PopCasStep(m, t, l, m', l') => PopKeeps(m, t, l, m', l');
      case RetireStep(m, t, l, m', l') => RetireKeeps(m, t, l, m', l');
      case SweepStep(m, t, l, m', l') => SweepKeeps(m, t, l, m', l');
      case StartPop(m, t, l, m', l') || IndexStep(m, t, l, m', l') || LoadStep(m, t, l, m', l') || SetStep(m, t, l, m', l')
             || NextStep(m, t, l, m', l') || ValueStep(m, t, l, m', l') || ScanStep(m, t, l, m', l')
             || ResetStep(m, t, l, m', l') || DropStep(m, t, l, m', l') => QuietKeeps(m, t, l, m', l');
    }
  }

  // ---- pairs of threads ------------------------------------------------------------------------------

  /** A thread that protects a node and another that scans: each step of either keeps the node in the hazard set. */
  lemma PairKeeps(m: Mem, t: nat, l: Local, m': Mem, l': Local, u: nat, k: Local)
    requires MemInv(m) && ThreadInv(m, t, l) && ThreadInv(m, u, k) && u != t && Action(m, t, l, m', l')
    requires Env(m, m', t, l, l') && PairOk(m, l, k) && PairOk(m, k, l)
    ensures PairOk(m', l', k) && PairOk(m', k, l')
  {
    assert k.idx.Some? ==> k.idx != l'.idx;
    Watched(m, t, l, m', l', k);
    Watches(m, t, l, m', l', u, k);
  }

  lemma Watched(m: Mem, t: nat, l: Local, m': Mem, l': Local, k: Local)
    requires MemInv(m) && ThreadInv(m, t, l) && Action(m, t, l, m', l') && Env(m, m', t, l, l') && Collected(m, l, k)
    requires k.idx.Some? ==> k.idx != l.idx
    ensures Collected(m', l', k)
  {
    if Guarded(l') != 0 && Guarded(l') != Guarded(l) && k.idx.Some? && k.idx.value < |m.retired| {
      assert CheckStep(m, t, l, m', l') && InOrder(m, 0);
      assert RetiredOk(m, k.idx.value);
    }
  }

  lemma Watches(m: Mem, t: nat, l: Local, m': Mem, l': Local, u: nat, k: Local)
    requires MemInv(m) && ThreadInv(m, t, l) && ThreadInv(m, u, k) && Action(m, t, l, m', l') && Env(m, m', t, l, l') && Collected(m, k, l)
    ensures Collected(m', k, l')
  {
    if l.pc.Sweep? {
      SweepWatches(m, t, l, m', l', k);
    } else if l.pc.Scan? {
      ScanWatches(m, t, l, m', l', u, k);
    }
  }

  lemma SweepWatches(m: Mem, t: nat, l: Local, m': Mem, l': Local, k: Local)
    requires MemInv(m) && ThreadInv(m, t, l) && l.pc.Sweep? && Action(m, t, l, m', l') && Collected(m, k, l)
    ensures Collected(m', k, l')
  {
    if m' != m {
      assert RetiredOk(m, l.idx.value);
      SwapRemoves(m.retired[l.idx.value], l.pc.i);
    }
  }

  lemma ScanWatches(m: Mem, t: nat, l: Local, m': Mem, l': Local, u: nat, k: Local)
    requires MemInv(m) && ThreadInv(m, u, k) && l.pc.Scan? && Action(m, t, l, m', l') && Collected(m, k, l)
    ensures Collected(m', k, l')
  {}

  // ---- the whole system ---------------------------------------------------------------------------------

  lemma StepKeeps(s: State, t: nat, s': State)
    requires Inv(s) && ThreadStep(s, t, s')
    ensures Inv(s')
  {
    var m, m', l, l' := s.m, s'.m, s.threads[t], s'.threads[t];
    assert ThreadInv(m, t, l);
    ActionKeeps(m, t, l, m', l');
    forall u | 0 <= u < |s'.threads| ensures ThreadInv(m', u, s'.threads[u]) {
      if u != t {
        assert ThreadInv(m, u, s.threads[u]) && PairOk(m, s.threads[u], l);
        Stable(m, m', t, l, l', u, s.threads[u]);
      }
    }
    forall u, v | 0 <= u < |s'.threads| && 0 <= v < |s'.threads| && u != v ensures PairOk(m', s'.threads[u], s'.threads[v]) {
      var x := if u == t then v else u;
      assert ThreadInv(m, x, s.threads[x]) && PairOk(m, s.threads[x], l) && PairOk(m, l, s.threads[x]);
      if u == t || v == t {
        PairKeeps(m, t, l, m', l', x, s.threads[x]);
      } else {
        assert PairOk(m, s.threads[u], s.threads[v]) && PairOk(m, s.threads[v], l);
      }
    }
  }

  lemma InitHolds(s: State)
    requires Init(s)
    ensures Inv(s)
  {
    forall u | 0 <= u < |s.m.retired| ensures RetiredOk(s.m, u) {}
  }

  lemma {:induction false} RunKeeps(run: seq<State>, n: nat)
    requires IsRun(run) && n < |run|
    ensures Inv(run[n])
  {
    if n == 0 {
      InitHolds(run[0]);
    } else {
      RunKeeps(run, n - 1);
      assert Next(run[n - 1], run[n]);
      var t :| ThreadStep(run[n - 1], t, run[n]);
      StepKeeps(run[n - 1], t, run[n]);
    }
  }
}

/**
What the invariants of the stack give: protected nodes are not freed, the stack
refines an atomic LIFO, and the retired lists stay bounded.
*/
module HazardStackTheorems {
  import opened HazardStack
  import opened HazardStackProof

  // ---- hazard safety -----------------------------------------------------------------------

  lemma NotFreed(s: State, t: nat, s': State, u: nat, a: Addr)
    requires Inv(s) && ThreadStep(s, t, s') && u < |s.threads| && Guarded(s.threads[u]) == a != 0
    ensures a in s.m.nodes && a in s'.m.nodes
    ensures s'.m.nodes[a].next == s.m.nodes[a].next && s'.m.nodes[a].value == s.m.nodes[a].value
  {
    var m, m', l, l' := s.m, s'.m, s.threads[t], s'.threads[t];
    assert ThreadInv(m, t, l) && ThreadInv(m, u, s.threads[u]);
    if u != t { assert PairOk(m, s.threads[u], l); }
    ActionKeeps(m, t, l, m', l');
    assert KeepsNode(m, m', t, a);
  }

  /** One step of a run, whoever takes it. */
  lemma ProtectedStep(run: seq<State>, j: nat, t: nat, a: Addr)
    requires IsRun(run) && j + 1 < |run| && t < |run[j].threads| && Guarded(run[j].threads[t]) == a != 0
    ensures a in run[j].m.nodes && a in run[j + 1].m.nodes
    ensures run[j + 1].m.nodes[a].next == run[j].m.nodes[a].next && run[j + 1].m.nodes[a].value == run[j].m.nodes[a].value
  {
    RunKeeps(run, j);
    assert Next(run[j], run[j + 1]);
    var u: nat :| ThreadStep(run[j], u, run[j + 1]);
    NotFreed(run[j], u, run[j + 1], t, a);
  }

  lemma ProtectedNow(run: seq<State>, j: nat, t: nat, a: Addr)
    requires IsRun(run) && j < |run| && t < |run[j].threads| && Guarded(run[j].threads[t]) == a != 0
    ensures a in run[j].m.nodes
  {
    RunKeeps(run, j);
    assert ThreadInv(run[j].m, t, run[j].threads[t]);
  }

  predicate Holds(run: seq<State>, k: nat, t: nat, a: Addr)
    requires k < |run|
  {
    t < |run[k].threads| && Guarded(run[k].threads[t]) == a
  }

  /** From the validating load to the reset of the guard, the node is the same node: allocated, never freed, never reused. */
  lemma {:induction false} ProtectedStays(run: seq<State>, i: nat, j: nat, t: nat, a: Addr)
    requires IsRun(run) && i <= j < |run| && a != 0
    requires forall k :: i <= k <= j ==> Holds(run, k, t, a)
    ensures a in run[i].m.nodes && a in run[j].m.nodes
    ensures run[j].m.nodes[a].next == run[i].m.nodes[a].next && run[j].m.nodes[a].value == run[i].m.nodes[a].value
  {
    if i == j {
      assert Holds(run, j, t, a);
      ProtectedNow(run, j, t, a);
    } else {
      ProtectedStays(run, i, j - 1, t, a);
      assert Holds(run, j - 1, t, a);
      ProtectedStep(run, j - 1, t, a);
    }
  }

  /** No step is ever held up by a pointer that leads nowhere: every node that is read, written or deleted is allocated. */
  lemma TouchesNodes(run: seq<State>, n: nat, t: nat)
    requires IsRun(run) && n < |run| && t < |run[n].threads|
    ensures var m, l := run[n].m, run[n].threads[t];
            && (l.pc.PushLoad? || l.pc.PushCas? ==> l.pc.n in m.nodes)
            && (l.pc.PopNext? || l.pc.PopValue? ==> l.pc.obj in m.nodes)
            && (l.pc.Sweep? ==> l.idx.Some? && l.idx.value < |m.retired|)
            && (l.pc.Sweep? && l.pc.i < |m.retired[l.idx.value]| ==> m.retired[l.idx.value][l.pc.i] in m.nodes)
            && (l.pc.PopSet? || l.pc.PopReset? || l.pc.PopDrop? ==> MySlot(m, l))
  {
    RunKeeps(run, n);
    var m, l := run[n].m, run[n].threads[t];
    assert ThreadInv(m, t, l);
    if l.pc.Sweep? { assert RetiredOk(m, l.idx.value); }
  }

  // ---- the atomic stack ------------------------------------------------------------------------

  datatype Op = Quiet | Pushing(v: Value) | Popping | Took(v: Value) | Returning(r: Option<Value>) | Lost

  datatype Spec = Spec(stack: seq<Value>, ops: seq<Op>)

  /** Push and TryPop take effect in one indivisible step; nullopt is decided while the stack is empty. */
  predicate SpecMove(q: seq<Value>, op: Op, q': seq<Value>, op': Op)
  {
    || (q' == q && op' == op)
    || match op
       case Quiet => q' == q && (op'.Pushing? || op'.Popping?)
       case Pushing(v) => q' == [v] + q && op' == Quiet
       case Popping =>
         || (q == [] && q' == [] && op' == Returning(None))
         || (q != [] && q' == q[1..] && op' == Took(q[0]))
         || (q' == q && op' == Lost)
       case Took(v) => q' == q && op' == Returning(Some(v))
       case Returning(_) => q' == q && op' == Quiet
       case Lost => false
  }

  predicate SpecStep(x: Spec, t: nat, x': Spec)
  {
    && t < |x.ops| == |x'.ops| && x'.ops == x.ops[t := x'.ops[t]]
    && SpecMove(x.stack, x.ops[t], x'.stack, x'.ops[t])
  }

  ghost predicate SpecNext(x: Spec, x': Spec)
  {
    exists t :: SpecStep(x, t, x')
  }

  function Owed(l: Local): Value
  {
    if l.val.Some? then l.val.value else 0
  }

  /** Lost: the process aborts, because the thread is one too many. */
  function OpOf(l: Local): Op
  {
    match l.pc
    case Idle => Quiet
    case Aborted => Lost
    case PushLoad(_) => Pushing(Owed(l))
    case PushCas(_) => Pushing(Owed(l))
    case PopValue(_) => Took(Owed(l))
    case PopRetire(_, v) => Took(v)
    case Scan(_, _, _, v) => Took(v)
    case Sweep(_, _, _, v) => Took(v)
    case PopReset(_, v) => Took(v)
    case PopDrop(r) => Returning(r)
    case _ => Popping
  }

  function Values(m: Mem): seq<Value>
  {
    seq(|m.order|, i requires 0 <= i < |m.order| => if m.order[i] in m.nodes then m.nodes[m.order[i]].value else 0)
  }

  function Abstract(s: State): Spec
  {
    Spec(Values(s.m), seq(|s.threads|, t requires 0 <= t < |s.threads| => OpOf(s.threads[t])))
  }

  /** Steps that do not change the chain do not change the stack. */
  lemma SameValues(m: Mem, t: nat, l: Local, m': Mem, l': Local)
    requires MemInv(m) && ThreadInv(m, t, l) && Action(m, t, l, m', l') && m'.order == m.order
    ensures Values(m') == Values(m)
  {
    ActionKeeps(m, t, l, m', l');
    forall i | 0 <= i < |m.order| ensures Values(m')[i] == Values(m)[i] {
      assert InOrder(m, i) && Placed(m, m.order[i]);
      assert KeepsNode(m, m', t, m.order[i]);
    }
  }

  lemma PushRefines(m: Mem, t: nat, l: Local, m': Mem, l': Local)
    requires MemInv(m) && ThreadInv(m, t, l) && PushCasStep(m, t, l, m', l') && l' != l
    ensures SpecMove(Values(m), OpOf(l), Values(m'), OpOf(l'))
  {
    assert Values(m') == [Owed(l)] + Values(m) by {
      forall i | 0 <= i < |m.order| ensures Values(m')[i + 1] == Values(m)[i] { assert InOrder(m, i); }
    }
  }

  lemma PopRefines(m: Mem, t: nat, l: Local, m': Mem, l': Local)
    requires MemInv(m) && ThreadInv(m, t, l) && PopCasStep(m, t, l, m', l') && l'.pc.PopValue?
    ensures SpecMove(Values(m), OpOf(l), Values(m'), OpOf(l'))
  {
    assert InOrder(m, 0);
    assert Values(m') == Values(m)[1..] by {
      forall i | 0 <= i < |m'.order| ensures Values(m')[i] == Values(m)[i + 1] { assert InOrder(m, i + 1); }
    }
  }

  lemma ActionRefines(m: Mem, t: nat, l: Local, m': Mem, l': Local)
    requires MemInv(m) && ThreadInv(m, t, l) && Action(m, t, l, m', l')
    ensures SpecMove(Values(m), OpOf(l), Values(m'), OpOf(l'))
  {
    if PushCasStep(m, t, l, m', l') && l' != l {
      PushRefines(m, t, l, m', l');
    } else if PopCasStep(m, t, l, m', l') && l'.pc.PopValue? {
      PopRefines(m, t, l, m', l');
    } else {
      QuietMoves(m, t, l, m', l');
      SameValues(m, t, l, m', l');
    }
  }

  /** Every other action leaves the chain alone and is invisible, apart from the validating load that sees null. */
  lemma QuietMoves(m: Mem, t: nat, l: Local, m': Mem, l': Local)
    requires MemInv(m) && ThreadInv(m, t, l) && Action(m, t, l, m', l')
    requires !(PushCasStep(m, t, l, m', l') && l' != l) && !(PopCasStep(m, t, l, m', l') && l'.pc.PopValue?)
    ensures m'.order == m.order && SpecMove(Values(m), OpOf(l), Values(m), OpOf(l'))
  {
    if l.pc.PopCheck? {
      NullMeansEmpty(m);
    } else if l.pc.PushLoad? || l.pc.PushCas? || l.pc.Idle? || l.pc.PopNext? || l.pc.PopCas? || l.pc.PopValue? || l.pc.PopRetire? {
      EarlyMoves(m, t, l, m', l');
    }
  }

  lemma EarlyMoves(m: Mem, t: nat, l: Local, m': Mem, l': Local)
    requires ThreadInv(m, t, l) && Action(m, t, l, m', l')
    requires l.pc.PushLoad? || l.pc.PushCas? || l.pc.Idle? || l.pc.PopNext? || l.pc.PopCas? || l.pc.PopValue? || l.pc.PopRetire?
    requires !(PushCasStep(m, t, l, m', l') && l' != l) && !(PopCasStep(m, t, l, m', l') && l'.pc.PopValue?)
    ensures m'.order == m.order && SpecMove(Values(m), OpOf(l), Values(m), OpOf(l'))
  {}

  lemma NullMeansEmpty(m: Mem)
    requires MemInv(m)
    ensures m.top == 0 <==> m.order == []
  {
    if m.order != [] { assert InOrder(m, 0) && Placed(m, m.order[0]); }
  }

  /** Every step of the implementation is a step of the atomic stack. */
  lemma StepRefines(s: State, t: nat, s': State)
    requires Inv(s) && ThreadStep(s, t, s')
    ensures SpecStep(Abstract(s), t, Abstract(s'))
  {
    assert ThreadInv(s.m, t, s.threads[t]);
    ActionRefines(s.m, t, s.threads[t], s'.m, s'.threads[t]);
  }

  lemma RunRefines(run: seq<State>, n: nat)
    requires IsRun(run) && n < |run|
    ensures n == 0 ==> Abstract(run[0]).stack == [] && forall t :: 0 <= t < |run[0].threads| ==> Abstract(run[0]).ops[t] == Quiet
    ensures n > 0 ==> SpecNext(Abstract(run[n - 1]), Abstract(run[n]))
  {
    if n > 0 {
      RunKeeps(run, n - 1);
      assert Next(run[n - 1], run[n]);
      var t: nat :| ThreadStep(run[n - 1], t, run[n]);
      StepRefines(run[n - 1], t, run[n]);
    }
  }

  // ---- reclamation -----------------------------------------------------------------------------------

  /** What the scan of a thread has done so far. */
  predicate ScanOk(m: Mem, l: Local)
  {
    && (l.pc.Scan? ==> l.pc.k <= |m.slots| && |l.pc.hazards| <= l.pc.k)
    && (l.pc.Sweep? ==> |l.pc.hazards| <= |m.slots|)
    && (l.pc.Sweep? && l.idx.Some? && l.idx.value < |m.retired| ==>
          l.pc.i <= |m.retired[l.idx.value]| && forall j :: 0 <= j < l.pc.i ==> m.retired[l.idx.value][j] in l.pc.hazards)
  }

  lemma {:induction false} ScanHolds(run: seq<State>, n: nat, t: nat)
    requires IsRun(run) && n < |run| && t < |run[n].threads|
    ensures ScanOk(run[n].m, run[n].threads[t])
  {
    if n > 0 {
      assert Next(run[n - 1], run[n]);
      var u: nat :| ThreadStep(run[n - 1], u, run[n]);
      ScanHolds(run, n - 1, t);
      RunKeeps(run, n - 1);
      var s, s' := run[n - 1], run[n];
      assert ThreadInv(s.m, u, s.threads[u]) && ThreadInv(s.m, t, s.threads[t]);
      ActionKeeps(s.m, u, s.threads[u], s'.m, s'.threads[u]);
      if u != t { assert PairOk(s.m, s.threads[t], s.threads[u]); } else { OwnScan(s.m, t, s.threads[t], s'.m, s'.threads[t]); }
    }
  }

  lemma OwnScan(m: Mem, t: nat, l: Local, m': Mem, l': Local)
    requires MemInv(m) && ThreadInv(m, t, l) && Action(m, t, l, m', l') && ScanOk(m, l)
    ensures ScanOk(m', l')
  {
  }

  /** A set holds at least as many elements as a list of distinct elements of it. */
  lemma {:induction false} DistinctFits(r: seq<Addr>, h: set<Addr>)
    requires forall i, j :: 0 <= i < j < |r| ==> r[i] != r[j]
    requires forall i :: 0 <= i < |r| ==> r[i] in h
    ensures |r| <= |h|
  {
    if r != [] { DistinctFits(r[1..], h - {r[0]}); }
  }

  /** When a scan ends, its thread holds at most one retired node per hazard slot. */
  lemma ScanBounds(run: seq<State>, n: nat, t: nat)
    requires IsRun(run) && n < |run| && t < |run[n].threads|
    requires var l := run[n].threads[t];
             l.pc.Sweep? && l.idx.Some? && l.idx.value < |run[n].m.retired| && l.pc.i >= |run[n].m.retired[l.idx.value]|
    ensures |run[n].m.retired[run[n].threads[t].idx.value]| <= SLOTS
  {
    RunKeeps(run, n);
    ScanHolds(run, n, t);
    var m, l := run[n].m, run[n].threads[t];
    assert RetiredOk(m, l.idx.value);
    DistinctFits(m.retired[l.idx.value], l.pc.hazards);
  }

  /** Every allocated node is private, linked, popped or in exactly one retired list, once: it will be freed at most once. */
  lemma RetiredOnce(run: seq<State>, n: nat, u: nat, i: nat, v: nat, j: nat)
    requires IsRun(run) && n < |run| && u < |run[n].m.retired| && v < |run[n].m.retired|
    requires i < |run[n].m.retired[u]| && j < |run[n].m.retired[v]| && run[n].m.retired[u][i] == run[n].m.retired[v][j]
    ensures u == v && i == j && run[n].m.retired[u][i] in run[n].m.nodes && run[n].m.retired[u][i] !in run[n].m.order
  {
    RunKeeps(run, n);
    var m := run[n].m;
    assert RetiredOk(m, u) && RetiredOk(m, v);
    forall k | 0 <= k < |m.order| ensures m.order[k] != m.retired[u][i] { assert InOrder(m, k); }
  }
}

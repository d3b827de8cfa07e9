/**
Push and TryPop of the stack are obstruction-free: from any reachable state a thread that runs alone
returns, or aborts for want of a thread index, within a number of steps that grows with its own
retired list only, as long as no compare-exchange fails without cause.
*/
module HazardStackProgress {
  import opened HazardStack
  import opened HazardStackProof

  /** A weak compare-exchange fails although top is as expected. */
  predicate Spurious(m: Mem, l: Local, l': Local)
  {
    match l.pc
    case PushCas(n) => n in m.nodes && m.top == m.nodes[n].next && l' == l
    case PopCas(obj, _) => m.top == obj && l'.pc.PopLoad?
    case _ => false
  }

  /** How much there is to sweep for the thread with index idx. */
  function Kept(m: Mem, idx: nat): nat
  {
    if idx < |m.retired| then |m.retired[idx]| else 0
  }

  function Mine(m: Mem, l: Local): nat
  {
    Kept(m, if l.idx.Some? then l.idx.value else m.nextIdx)
  }

  /** Steps until the thread returns or aborts. */
  function Rank(m: Mem, l: Local): nat
  {
    var b := Mine(m, l) + |m.slots|;
    match l.pc
    case Idle => 0
    case Aborted => 0
    case PushLoad(_) => 3
    case PushCas(n) => if n in m.nodes && m.nodes[n].next == m.top then 1 else 2
    case PopIndex => b + 13
    case PopLoad => b + 12
    case PopSet(obj) => if obj == m.top then b + 11 else b + 13
    case PopCheck(obj) => if obj == m.top then b + 10 else b + 12
    case PopNext(obj) => if obj == m.top then b + 9 else b + 14
    case PopCas(obj, _) => if obj == m.top then b + 8 else b + 13
    case PopValue(_) => b + 7
    case PopRetire(_, _) => b + 6
    case Scan(k, _, _, _) => Mine(m, l) + 4 + if k < |m.slots| then |m.slots| - k else 0
    case Sweep(i, _, _, _) => 3 + if i < Mine(m, l) then Mine(m, l) - i else 0
    case PopReset(_, _) => 2
    case PopDrop(_) => 1
  }

  lemma PushCloser(m: Mem, t: nat, l: Local, m': Mem, l': Local)
    requires (PushLoadStep(m, t, l, m', l') || PushCasStep(m, t, l, m', l')) && !Spurious(m, l, l')
    ensures Rank(m', l') < Rank(m, l)
  {}

  lemma GuardCloser(m: Mem, t: nat, l: Local, m': Mem, l': Local)
    requires Shape(m, l) && (IndexStep(m, t, l, m', l') || LoadStep(m, t, l, m', l') || SetStep(m, t, l, m', l') || CheckStep(m, t, l, m', l'))
    ensures Rank(m', l') < Rank(m, l)
  {}

  lemma PopCloser(m: Mem, t: nat, l: Local, m': Mem, l': Local)
    requires Shape(m, l) && (NextStep(m, t, l, m', l') || PopCasStep(m, t, l, m', l') || ValueStep(m, t, l, m', l')) && !Spurious(m, l, l')
    ensures Rank(m', l') < Rank(m, l)
  {}

  lemma RetireCloser(m: Mem, t: nat, l: Local, m': Mem, l': Local)
    requires RetireStep(m, t, l, m', l') || ScanStep(m, t, l, m', l')
    ensures Rank(m', l') < Rank(m, l)
  {}

  lemma SweepCloser(m: Mem, t: nat, l: Local, m': Mem, l': Local)
    requires SweepStep(m, t, l, m', l') || ResetStep(m, t, l, m', l') || DropStep(m, t, l, m', l')
    ensures Rank(m', l') < Rank(m, l)
  {}

  lemma StepCloser(m: Mem, t: nat, l: Local, m': Mem, l': Local)
    requires Shape(m, l) && Action(m, t, l, m', l') && !Spurious(m, l, l') && !l.pc.Idle?
    ensures Rank(m', l') < Rank(m, l)
  {
    if PushLoadStep(m, t, l, m', l') || PushCasStep(m, t, l, m', l') { PushCloser(m, t, l, m', l'); }
    else if IndexStep(m, t, l, m', l') || LoadStep(m, t, l, m', l') || SetStep(m, t, l, m', l') || CheckStep(m, t, l, m', l') {
      GuardCloser(m, t, l, m', l');
    }
    else if NextStep(m, t, l, m', l') || PopCasStep(m, t, l, m', l') || ValueStep(m, t, l, m', l') { PopCloser(m, t, l, m', l'); }
    else if RetireStep(m, t, l, m', l') || ScanStep(m, t, l, m', l') { RetireCloser(m, t, l, m', l'); }
    else { SweepCloser(m, t, l, m', l'); }
  }

  // ---- there is always a step ------------------------------------------------------------------

  ghost predicate Goes(m: Mem, t: nat, l: Local, m': Mem, l': Local)
  {
    Action(m, t, l, m', l') && !Spurious(m, l, l')
  }

  lemma PushGoes(m: Mem, t: nat, l: Local) returns (m': Mem, l': Local)
    requires Knows(m, t, l) && (l.pc.PushLoad? || l.pc.PushCas?)
    ensures Goes(m, t, l, m', l')
  {
    var n := l.pc.n;
    if l.pc.PushLoad? {
      m', l' := Put(m, n, m.nodes[n].(next := m.top)), l.(pc := PushCas(n));
      assert PushLoadStep(m, t, l, m', l');
    } else if m.top == m.nodes[n].next {
      m' := Put(m, n, m.nodes[n].(status := Linked)).(top := n, order := [n] + m.order);
      l' := l.(pc := Idle, val := None);
      assert PushCasStep(m, t, l, m', l');
    } else {
      m', l' := Put(m, n, m.nodes[n].(next := m.top)), l;
      assert PushCasStep(m, t, l, m', l');
    }
  }

  lemma GuardGoes(m: Mem, t: nat, l: Local) returns (m': Mem, l': Local)
    requires MemInv(m) && ThreadInv(m, t, l) && (l.pc.PopIndex? || l.pc.PopLoad? || l.pc.PopSet? || l.pc.PopCheck?)
    ensures Goes(m, t, l, m', l')
  {
    match l.pc
    case PopIndex =>
      m' := m.(nextIdx := m.nextIdx + 1);
      l' := l.(idx := Some(m.nextIdx), pc := if m.nextIdx >= MAX_THREADS then Aborted else PopLoad);
      assert IndexStep(m, t, l, m', l');
    case PopLoad => m', l' := m, l.(pc := PopSet(m.top)); assert LoadStep(m, t, l, m', l');
    case PopSet(obj) => m', l' := SetSlot(m, l, obj), l.(pc := PopCheck(obj)); assert SetStep(m, t, l, m', l');
    case PopCheck(obj) =>
      m', l' := m, l.(pc := if obj != m.top then PopSet(m.top) else if m.top == 0 then PopDrop(None) else PopNext(m.top));
      assert CheckStep(m, t, l, m', l');
  }

  lemma PopGoes(m: Mem, t: nat, l: Local) returns (m': Mem, l': Local)
    requires MemInv(m) && ThreadInv(m, t, l) && (l.pc.PopNext? || l.pc.PopCas? || l.pc.PopValue? || l.pc.PopRetire?)
    ensures Goes(m, t, l, m', l')
  {
    match l.pc
    case PopNext(obj) => m', l' := m, l.(pc := PopCas(obj, m.nodes[obj].next)); assert NextStep(m, t, l, m', l');
    case PopCas(obj, next) =>
      if m.top == obj { m', l' := Unlink(m, t).(top := next), l.(pc := PopValue(obj), val := First(m)); }
      else { m', l' := m, l.(pc := PopLoad); }
      assert PopCasStep(m, t, l, m', l');
    case PopValue(obj) => m', l' := m, l.(pc := PopRetire(obj, m.nodes[obj].value)); assert ValueStep(m, t, l, m', l');
    case PopRetire(obj, v) =>
      m' := Retire(m, l.idx.value, obj);
      l' := l.(pc := if |m'.retired[l.idx.value]| > SCAN_FREQ then Scan(0, {}, obj, v) else PopReset(obj, v));
      assert RetireStep(m, t, l, m', l');
  }

  lemma SweepGoes(m: Mem, t: nat, l: Local) returns (m': Mem, l': Local)
    requires MemInv(m) && ThreadInv(m, t, l) && (l.pc.Scan? || l.pc.Sweep? || l.pc.PopReset? || l.pc.PopDrop?)
    ensures Goes(m, t, l, m', l')
  {
    match l.pc
    case Scan(k, h, obj, v) =>
      m' := m;
      l' := l.(pc := if k < |m.slots| then Scan(k + 1, if m.slots[k] == 0 then h else h + {m.slots[k]}, obj, v) else Sweep(0, h, obj, v));
      assert ScanStep(m, t, l, m', l');
    case Sweep(i, h, obj, v) =>
      var u := l.idx.value;
      assert RetiredOk(m, u);
      if i >= |m.retired[u]| { m', l' := m, l.(pc := PopReset(obj, v)); }
      else if m.retired[u][i] in h { m', l' := m, l.(pc := Sweep(i + 1, h, obj, v)); }
      else { m', l' := Reclaim(m, u, i), l; }
      assert SweepStep(m, t, l, m', l');
    case PopReset(obj, v) => m', l' := SetSlot(m, l, 0), l.(pc := PopDrop(Some(v))); assert ResetStep(m, t, l, m', l');
    case PopDrop(r) => m', l' := SetSlot(m, l, 0), l.(pc := Idle, val := None); assert DropStep(m, t, l, m', l');
  }

  // ---- runs --------------------------------------------------------------------------------------

  predicate Inside(s: State, t: nat)
  {
    t < |s.threads| && !s.threads[t].pc.Idle? && !s.threads[t].pc.Aborted?
  }

  /** A step of t, which is inside a call, without a spurious failure. */
  ghost predicate SoloStep(s: State, t: nat, s': State)
  {
    Inside(s, t) && ThreadStep(s, t, s') && !Spurious(s.m, s.threads[t], s'.threads[t])
  }

  /** t runs alone, and is inside a call in all states but perhaps the last. */
  ghost predicate Alone(states: seq<State>, t: nat)
  {
    |states| > 0 && t < |states[0].threads| && forall i :: 0 <= i < |states| - 1 ==> SoloStep(states[i], t, states[i + 1])
  }

  ghost predicate CanGo(s: State, t: nat)
  {
    exists s' :: SoloStep(s, t, s')
  }

  lemma SoloCloser(s: State, t: nat, s': State)
    requires Inv(s) && SoloStep(s, t, s')
    ensures Inv(s') && Rank(s'.m, s'.threads[t]) < Rank(s.m, s.threads[t])
  {
    StepKeeps(s, t, s');
    assert ThreadInv(s.m, t, s.threads[t]);
    StepCloser(s.m, t, s.threads[t], s'.m, s'.threads[t]);
  }

  lemma {:induction false} RankFalls(states: seq<State>, t: nat, i: nat)
    requires Alone(states, t) && Inv(states[0]) && i < |states|
    ensures Inv(states[i]) && t < |states[i].threads|
    ensures Rank(states[i].m, states[i].threads[t]) + i <= Rank(states[0].m, states[0].threads[t])
  {
    if i > 0 {
      RankFalls(states, t, i - 1);
      assert SoloStep(states[i - 1], t, states[i]);
      SoloCloser(states[i - 1], t, states[i]);
    }
  }

  lemma SoloGoes(s: State, t: nat)
    requires Inv(s) && Inside(s, t)
    ensures CanGo(s, t)
  {
    var m, l := s.m, s.threads[t];
    assert ThreadInv(m, t, l);
    var m', l' := m, l;
    if l.pc.PushLoad? || l.pc.PushCas? { m', l' := PushGoes(m, t, l); }
    else if l.pc.PopIndex? || l.pc.PopLoad? || l.pc.PopSet? || l.pc.PopCheck? { m', l' := GuardGoes(m, t, l); }
    else if l.pc.PopNext? || l.pc.PopCas? || l.pc.PopValue? || l.pc.PopRetire? { m', l' := PopGoes(m, t, l); }
    else { m', l' := SweepGoes(m, t, l); }
    assert SoloStep(s, t, State(m', s.threads[t := l']));
  }

  /** From any state of any run, a thread that runs alone returns or aborts in time, and always has a next step before. */
  lemma ReturnsAlone(run: seq<State>, n: nat, states: seq<State>, t: nat)
    requires IsRun(run) && n < |run| && Alone(states, t) && states[0] == run[n]
    ensures |states| <= Mine(run[n].m, run[n].threads[t]) + SLOTS + 15
    ensures Inside(states[|states| - 1], t) ==> CanGo(states[|states| - 1], t)
  {
    RunKeeps(run, n);
    var last := |states| - 1;
    RankFalls(states, t, last);
    if Inside(states[last], t) { SoloGoes(states[last], t); }
  }
}

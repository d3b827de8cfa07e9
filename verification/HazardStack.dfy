/**
The lock-free stack with hazard pointers (src/exe/lf/lock_free_stack.hpp and
src/exe/lf/memory/hazard).  Any number of threads push and pop; every atomic
operation, every access to a node, every read of a hazard slot during a scan and
every deletion is one step.  Freed addresses may be allocated again.
*/
module HazardStack {

  type Addr = nat                // 0 is nullptr
  type Value = int               // payloads are never inspected

  const MAX_THREADS := 32
  const MAX_HAZARD_PTRS := 4
  const SCAN_FREQ := 8 * MAX_HAZARD_PTRS * 2
  const SLOTS := MAX_THREADS * MAX_HAZARD_PTRS

  datatype Option<+X> = None | Some(value: X)

  /** Where a node is (history). */
  datatype Status =
    | Private(t: nat)            // allocated by thread t, not pushed yet
    | Linked                     // in the stack
    | Popped(t: nat)             // unlinked by thread t
    | Retired(u: nat)            // in the retired list of the thread state u

  datatype Node = Node(next: Addr, value: Value, status: Status)

  datatype Pc =
    | Idle
    | Aborted                    // too many threads
      // Push
    | PushLoad(n: Addr)
    | PushCas(n: Addr)
      // TryPop
    | PopIndex
    | PopLoad
    | PopSet(obj: Addr)
    | PopCheck(obj: Addr)
    | PopNext(obj: Addr)
    | PopCas(obj: Addr, next: Addr)
    | PopValue(obj: Addr)
    | PopRetire(obj: Addr, v: Value)
    | Scan(k: nat, hazards: set<Addr>, obj: Addr, v: Value)
    | Sweep(i: nat, hazards: set<Addr>, obj: Addr, v: Value)
    | PopReset(obj: Addr, v: Value)
    | PopDrop(r: Option<Value>)

  /** `idx` is the thread-local index into the thread states; `val` (history) the value pushed or taken. */
  datatype Local = Local(pc: Pc, idx: Option<nat>, val: Option<Value>)

  datatype Mem = Mem(
    top: Addr,
    nodes: map<Addr, Node>,      // allocated nodes
    slots: seq<Addr>,            // all hazard slots, in the order of a scan
    retired: seq<seq<Addr>>,     // the retired list of each thread state
    nextIdx: nat,
    order: seq<Addr>)            // history: the nodes of the stack, top first

  datatype State = State(m: Mem, threads: seq<Local>)

  ghost predicate Init(s: State)
  {
    && s.m == Mem(0, map[], seq(SLOTS, _ => 0), seq(MAX_THREADS, _ => []), 0, [])
    && forall t :: 0 <= t < |s.threads| ==> s.threads[t] == Local(Idle, None, None)
  }

  function SlotOf(idx: nat): nat
  {
    idx * MAX_HAZARD_PTRS
  }

  function Put(m: Mem, a: Addr, n: Node): Mem
  {
    m.(nodes := m.nodes[a := n])
  }

  // ---- push -----------------------------------------------------------------------------

  ghost predicate StartPush(m: Mem, t: nat, l: Local, m': Mem, l': Local)
  {
    l.pc.Idle? && exists n, v :: n != 0 && n !in m.nodes && m' == Put(m, n, Node(0, v, Private(t))) && l' == l.(pc := PushLoad(n), val := Some(v))
  }

  predicate PushLoadStep(m: Mem, t: nat, l: Local, m': Mem, l': Local)
  {
    && l.pc.PushLoad? && l.pc.n in m.nodes
    && m' == Put(m, l.pc.n, m.nodes[l.pc.n].(next := m.top)) && l' == l.(pc := PushCas(l.pc.n))
  }

  predicate PushCasStep(m: Mem, t: nat, l: Local, m': Mem, l': Local)
  {
    && l.pc.PushCas? && l.pc.n in m.nodes
    && var n := l.pc.n;
       (|| (m' == Put(m, n, m.nodes[n].(next := m.top)) && l' == l)
        || (m.top == m.nodes[n].next
            && m' == Put(m, n, m.nodes[n].(status := Linked)).(top := n, order := [n] + m.order) && l' == l.(pc := Idle, val := None)))
  }

  // ---- pop ------------------------------------------------------------------------------

  predicate StartPop(m: Mem, t: nat, l: Local, m': Mem, l': Local)
  {
    l.pc.Idle? && m' == m && l' == l.(pc := if l.idx.None? then PopIndex else PopLoad)
  }

  /** MakeMutator. */
  predicate IndexStep(m: Mem, t: nat, l: Local, m': Mem, l': Local)
  {
    && l.pc.PopIndex? && m' == m.(nextIdx := m.nextIdx + 1)
    && l' == l.(idx := Some(m.nextIdx), pc := if m.nextIdx >= MAX_THREADS then Aborted else PopLoad)
  }

  predicate LoadStep(m: Mem, t: nat, l: Local, m': Mem, l': Local)
  {
    l.pc.PopLoad? && m' == m && l' == l.(pc := PopSet(m.top))
  }

  predicate MySlot(m: Mem, l: Local)
  {
    l.idx.Some? && SlotOf(l.idx.value) < |m.slots|
  }

  function SetSlot(m: Mem, l: Local, a: Addr): Mem
    requires MySlot(m, l)
  {
    m.(slots := m.slots[SlotOf(l.idx.value) := a])
  }

  predicate SetStep(m: Mem, t: nat, l: Local, m': Mem, l': Local)
  {
    l.pc.PopSet? && MySlot(m, l) && m' == SetSlot(m, l, l.pc.obj) && l' == l.(pc := PopCheck(l.pc.obj))
  }

  /** The validating load. */
  predicate CheckStep(m: Mem, t: nat, l: Local, m': Mem, l': Local)
  {
    && l.pc.PopCheck? && m' == m
    && l' == l.(pc := if l.pc.obj != m.top then PopSet(m.top) else if m.top == 0 then PopDrop(None) else PopNext(m.top))
  }

  predicate NextStep(m: Mem, t: nat, l: Local, m': Mem, l': Local)
  {
    l.pc.PopNext? && l.pc.obj in m.nodes && m' == m && l' == l.(pc := PopCas(l.pc.obj, m.nodes[l.pc.obj].next))
  }

  /** The value owed is that of the first node of the stack, whatever the thread will read. */
  predicate PopCasStep(m: Mem, t: nat, l: Local, m': Mem, l': Local)
  {
    && l.pc.PopCas?
    && (|| (m' == m && l' == l.(pc := PopLoad))
        || (m.top == l.pc.obj
            && m' == Unlink(m, t).(top := l.pc.next)
            && l' == l.(pc := PopValue(l.pc.obj), val := First(m))))
  }

  function Unlink(m: Mem, t: nat): Mem
  {
    if m.top in m.nodes && m.order != [] then
      Put(m, m.top, m.nodes[m.top].(status := Popped(t))).(order := m.order[1..])
    else m
  }

  function First(m: Mem): Option<Value>
  {
    if m.order != [] && m.order[0] in m.nodes then Some(m.nodes[m.order[0]].value) else None
  }

  predicate ValueStep(m: Mem, t: nat, l: Local, m': Mem, l': Local)
  {
    l.pc.PopValue? && l.pc.obj in m.nodes && m' == m && l' == l.(pc := PopRetire(l.pc.obj, m.nodes[l.pc.obj].value))
  }

  function Retire(m: Mem, u: nat, a: Addr): Mem
    requires u < |m.retired|
  {
    var m' := m.(retired := m.retired[u := m.retired[u] + [a]]);
    if a in m.nodes then Put(m', a, m.nodes[a].(status := Retired(u))) else m'
  }

  predicate RetireStep(m: Mem, t: nat, l: Local, m': Mem, l': Local)
  {
    && l.pc.PopRetire? && l.idx.Some? && l.idx.value < |m.retired|
    && m' == Retire(m, l.idx.value, l.pc.obj)
    && l' == l.(pc := if |m'.retired[l.idx.value]| > SCAN_FREQ then Scan(0, {}, l.pc.obj, l.pc.v) else PopReset(l.pc.obj, l.pc.v))
  }

  // ---- the scan -----------------------------------------------------------------------------

  predicate ScanStep(m: Mem, t: nat, l: Local, m': Mem, l': Local)
  {
    && l.pc.Scan? && m' == m
    && if l.pc.k < |m.slots| then
         l' == l.(pc := Scan(l.pc.k + 1, if m.slots[l.pc.k] == 0 then l.pc.hazards else l.pc.hazards + {m.slots[l.pc.k]}, l.pc.obj, l.pc.v))
       else
         l' == l.(pc := Sweep(0, l.pc.hazards, l.pc.obj, l.pc.v))
  }

  /** The last element takes the place of element i. */
  function SwapRemove(r: seq<Addr>, i: nat): seq<Addr>
    requires i < |r|
  {
    r[i := r[|r| - 1]][..|r| - 1]
  }

  function Reclaim(m: Mem, u: nat, i: nat): Mem
    requires u < |m.retired| && i < |m.retired[u]|
  {
    m.(nodes := m.nodes - {m.retired[u][i]}, retired := m.retired[u := SwapRemove(m.retired[u], i)])
  }

  predicate SweepStep(m: Mem, t: nat, l: Local, m': Mem, l': Local)
  {
    && l.pc.Sweep? && l.idx.Some? && l.idx.value < |m.retired|
    && var u, i := l.idx.value, l.pc.i;
       if i >= |m.retired[u]| then
         m' == m && l' == l.(pc := PopReset(l.pc.obj, l.pc.v))
       else if m.retired[u][i] in l.pc.hazards then
         m' == m && l' == l.(pc := Sweep(i + 1, l.pc.hazards, l.pc.obj, l.pc.v))
       else
         m.retired[u][i] in m.nodes && m' == Reclaim(m, u, i) && l' == l
  }

  /** Reset, then the destructor of the guard. */
  predicate ResetStep(m: Mem, t: nat, l: Local, m': Mem, l': Local)
  {
    l.pc.PopReset? && MySlot(m, l) && m' == SetSlot(m, l, 0) && l' == l.(pc := PopDrop(Some(l.pc.v)))
  }

  predicate DropStep(m: Mem, t: nat, l: Local, m': Mem, l': Local)
  {
    l.pc.PopDrop? && MySlot(m, l) && m' == SetSlot(m, l, 0) && l' == l.(pc := Idle, val := None)
  }

  // ---- the transition system ------------------------------------------------------------------

  ghost predicate Action(m: Mem, t: nat, l: Local, m': Mem, l': Local)
  {
    || StartPush(m, t, l, m', l') || PushLoadStep(m, t, l, m', l') || PushCasStep(m, t, l, m', l')
    || StartPop(m, t, l, m', l') || IndexStep(m, t, l, m', l') || LoadStep(m, t, l, m', l')
    || SetStep(m, t, l, m', l') || CheckStep(m, t, l, m', l') || NextStep(m, t, l, m', l')
    || PopCasStep(m, t, l, m', l') || ValueStep(m, t, l, m', l') || RetireStep(m, t, l, m', l')
    || ScanStep(m, t, l, m', l') || SweepStep(m, t, l, m', l') || ResetStep(m, t, l, m', l') || DropStep(m, t, l, m', l')
  }

  ghost predicate ThreadStep(s: State, t: nat, s': State)
  {
    && t < |s.threads| == |s'.threads| && s'.threads == s.threads[t := s'.threads[t]]
    && Action(s.m, t, s.threads[t], s'.m, s'.threads[t])
  }

  ghost predicate Next(s: State, s': State)
  {
    exists t :: ThreadStep(s, t, s')
  }

  ghost predicate IsRun(run: seq<State>)
  {
    && |run| > 0 && Init(run[0])
    && forall i :: 0 < i < |run| ==> Next(run[i - 1], run[i])
  }
}

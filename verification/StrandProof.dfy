/**
What every step of the strand keeps.  The proof is by interference: `Env` says
what a step of another fiber may do, `Stable` that a fiber's own knowledge
survives it, and each kind of step is shown to stay within `Env`.
*/
module StrandProof {
  import opened Strand

  // ---- the inductive invariant -------------------------------------------------

  /** The combiner runs from its claim until the hand-over. */
  predicate Owning(pc: Pc, cur: Addr)
  {
    || pc.RunOwn? || pc.FetchLoad? || pc.FetchTry? || pc.BatchNext? || pc.BatchRun? || pc.EndLoad? || pc.EndTry?
    || (pc.BatchSchedule? && pc.next != 0)
  }

  predicate Batching(pc: Pc)
  {
    pc.BatchNext? || pc.BatchRun? || pc.EndLoad? || pc.EndTry? || pc.BatchSchedule?
  }

  /** Before its critical section can have run. */
  predicate Early(pc: Pc)
  {
    pc.FirstLoad? || pc.FirstCas? || pc.AwaitLoad? || pc.AwaitTry? || pc.AwaitPush? || pc.RunOwn?
  }

  predicate Shape(l: Local)
  {
    && (l.me == 0 <==> l.pc == Idle)
    && (l.todo != [] <==> Batching(l.pc) || (l.pc.RunOwn? && l.cur != 0))
    && l.cur == Top(l.todo)
    && (l.pc.BatchRun? || l.pc.BatchSchedule? ==> l.pc.next == Top(DropTop(l.todo)))
    && (l.pc.EndLoad? || l.pc.EndTry? ==> |l.todo| == 1)
    && (l.pc.FetchTry? || l.pc.EndTry? ==> l.pc.seen == Dummy || l.pc.seen.Busy?)
    && (l.pc.CheckCas? ==> l.pc.was.Free?)
    && (l.pc.AwaitPush? ==> l.pc.was == Dummy || l.pc.was.Busy?)
  }

  /** What the fiber knows of its own waiter. */
  predicate OwnWaiter(m: Mem, f: Fid, l: Local)
  {
    l.me != 0 ==>
      && l.me in m.waiters
      && var w := m.waiters[l.me];
         && w.fiber == f
         && (Early(l.pc) ==> w.role == Private && w.runs == 0)
         && (l.pc.AwaitPush? ==> w.next == Strip(l.pc.was))
         && (l.pc.Check? || l.pc.CheckCas? ==> w.role == Released)
         && (!Early(l.pc) && l.pc != Waiting ==> w.runs == 1 && (w.role == Private || w.role == Released))
         && (l.pc == Waiting ==> w.role != Private)
  }

  /** What it knows of the j-th waiter of its batch. */
  predicate TodoAt(m: Mem, f: Fid, l: Local, j: nat)
    requires j < |l.todo|
  {
    var a := l.todo[j];
    && a != 0 && a in m.waiters
    && var w := m.waiters[a];
       && w.role == Batched(f, j)
       && w.next == (if j == 0 then 0 else l.todo[j - 1])
       && w.runs == if j + 1 == |l.todo| && (l.pc.EndLoad? || l.pc.EndTry? || l.pc.BatchSchedule?) then 1 else 0
  }

  predicate Todo(m: Mem, f: Fid, l: Local)
  {
    forall j {:trigger TodoAt(m, f, l, j)} :: 0 <= j < |l.todo| ==> TodoAt(m, f, l, j)
  }

  /** Waiters name the fiber only as its own state says. */
  predicate NamesAt(m: Mem, f: Fid, l: Local, a: Addr)
    requires a in m.waiters
  {
    var w := m.waiters[a];
    && (w.fiber == f ==> l.me == a && (w.role.Pending? || w.role.Batched? ==> l.pc == Waiting))
    && (w.role.Batched? && w.role.u == f ==> w.role.j < |l.todo| && l.todo[w.role.j] == a)
    && (m.heir == a ==>
          && (w.fiber == f && w.role == Released ==> l.pc == Waiting || l.pc == Check || l.pc == CheckCas(m.head))
          && (w.role.Batched? && w.role.u == f ==> l.pc == BatchSchedule(0)))
  }

  predicate Names(m: Mem, f: Fid, l: Local)
  {
    && (m.owner == Some(f) <==> Owning(l.pc, l.cur))
    && forall a {:trigger NamesAt(m, f, l, a)} :: a in m.waiters ==> NamesAt(m, f, l, a)
  }

  predicate FiberInv(m: Mem, f: Fid, l: Local)
  {
    Shape(l) && OwnWaiter(m, f, l) && Todo(m, f, l) && Names(m, f, l)
  }

  predicate PendAt(m: Mem, i: nat)
    requires i < |m.pend|
  {
    var a := m.pend[i];
    && a != 0 && a in m.waiters
    && m.waiters[a].role == Pending(i) && m.waiters[a].runs == 0
    && m.waiters[a].next == if i == 0 then 0 else m.pend[i - 1]
  }

  predicate WaiterAt(m: Mem, a: Addr)
    requires a in m.waiters
  {
    var w := m.waiters[a];
    && a != 0
    && (w.role.Pending? ==> w.role.i < |m.pend| && m.pend[w.role.i] == a)
    && (w.role == Released ==> w.runs == 1)
  }

  predicate WordOk(m: Mem)
  {
    && (m.head == Null || m.head == Dummy <==> m.pend == [])
    && (m.head.Busy? || m.head.Free? ==> m.head.a == Top(m.pend))
    && (m.owner.Some? <==> m.head == Dummy || m.head.Busy?)
    && (m.heir != 0 <==> m.head.Free?)
    && (m.heir != 0 ==> m.heir in m.waiters && (m.waiters[m.heir].role == Released || m.waiters[m.heir].role.Batched?))
  }

  predicate MemInv(m: Mem)
  {
    && WordOk(m)
    && (forall i {:trigger PendAt(m, i)} :: 0 <= i < |m.pend| ==> PendAt(m, i))
    && (forall a {:trigger WaiterAt(m, a)} :: a in m.waiters ==> WaiterAt(m, a))
  }

  predicate KnownAt(m: Mem, fibers: set<Fid>, a: Addr)
    requires a in m.waiters
  {
    m.waiters[a].fiber in fibers && (m.waiters[a].role.Batched? ==> m.waiters[a].role.u in fibers)
  }

  predicate Known(m: Mem, fibers: set<Fid>)
  {
    && (m.owner.Some? ==> m.owner.value in fibers)
    && forall a {:trigger KnownAt(m, fibers, a)} :: a in m.waiters ==> KnownAt(m, fibers, a)
  }

  predicate Inv(s: State)
  {
    && MemInv(s.m)
    && (forall f :: f in s.fibers ==> FiberInv(s.m, f, s.fibers[f]))
    && Known(s.m, s.fibers.Keys)
  }

  // ---- interference -------------------------------------------------------------

  predicate EnvAt(m: Mem, m': Mem, f: Fid, a: Addr)
  {
    && (a in m.waiters && m.waiters[a].fiber == f ==>
          && a in m'.waiters && m'.waiters[a].fiber == f
          && (m.waiters[a].role == Private || m.waiters[a].role == Released ==> m'.waiters[a] == m.waiters[a])
          && (m'.waiters[a].role == Private ==> m.waiters[a].role == Private))
    && (a in m.waiters && m.waiters[a].role.Batched? && m.waiters[a].role.u == f ==>
          a in m'.waiters && m'.waiters[a] == m.waiters[a])
    && (a in m'.waiters && m'.waiters[a].fiber == f ==> a in m.waiters && m.waiters[a].fiber == f)
    && (a in m'.waiters && m'.waiters[a].role.Batched? && m'.waiters[a].role.u == f ==>
          a in m.waiters && m.waiters[a].role == m'.waiters[a].role)
  }

  ghost predicate Env(m: Mem, m': Mem, f: Fid)
  {
    && (m.owner == Some(f) <==> m'.owner == Some(f))
    && (m'.heir != 0 ==>
          if m'.heir == m.heir then m'.head == m.head
          else m'.heir in m'.waiters && m'.waiters[m'.heir].role.Batched? && m'.waiters[m'.heir].role.u != f)
    && forall a {:trigger EnvAt(m, m', f, a)} :: EnvAt(m, m', f, a)
  }

  lemma Stable(m: Mem, m': Mem, f: Fid, l: Local)
    requires FiberInv(m, f, l) && Env(m, m', f) && MemInv(m')
    ensures FiberInv(m', f, l)
  {
    assert EnvAt(m, m', f, l.me);
    if l.me != 0 { assert NamesAt(m, f, l, l.me) && WaiterAt(m', l.me); }
    forall j | 0 <= j < |l.todo| ensures TodoAt(m', f, l, j) {
      assert TodoAt(m, f, l, j) && EnvAt(m, m', f, l.todo[j]);
    }
    forall a | a in m'.waiters ensures NamesAt(m', f, l, a) {
      assert EnvAt(m, m', f, a) && WaiterAt(m', a);
      if a in m.waiters { assert NamesAt(m, f, l, a); }
    }
  }

  // ---- reads ----------------------------------------------------------------------

  /** The current waiter of the batch. */
  lemma Current(m: Mem, f: Fid, l: Local)
    requires Shape(l) && Todo(m, f, l) && l.todo != []
    ensures TodoAt(m, f, l, |l.todo| - 1) && l.cur == l.todo[|l.todo| - 1]
    ensures l.cur in m.waiters && m.waiters[l.cur].next == Top(DropTop(l.todo))
    ensures Top(DropTop(l.todo)) == 0 <==> |l.todo| == 1
  {
    assert TodoAt(m, f, l, |l.todo| - 1);
    if |l.todo| > 1 { assert TodoAt(m, f, l, |l.todo| - 2); }
  }

  lemma ReadOwn(m: Mem, f: Fid, l: Local, l': Local)
    requires MemInv(m) && FiberInv(m, f, l) && l' == l.(pc := l'.pc) && Read(m, l, l'.pc)
    ensures FiberInv(m, f, l')
  {
    if l.me in m.waiters { assert NamesAt(m, f, l, l.me) && WaiterAt(m, l.me); }
    if l.todo != [] { Current(m, f, l); }
    assert Shape(l');
    forall j | 0 <= j < |l.todo| ensures TodoAt(m, f, l', j) { assert TodoAt(m, f, l, j); }
    forall a | a in m.waiters ensures NamesAt(m, f, l', a) { assert NamesAt(m, f, l, a); }
  }

  // ---- writes: the memory, the acting fiber, and any other fiber g ---------------------------------------------------------------------

  lemma EnterKeeps(m: Mem, f: Fid, l: Local, m': Mem, l': Local, g: Fid)
    requires MemInv(m) && FiberInv(m, f, l) && Enter(m, f, l, m', l')
    ensures MemInv(m') && FiberInv(m', f, l') && (g != f ==> Env(m, m', g))
  {
    forall i | 0 <= i < |m'.pend| ensures PendAt(m', i) { assert PendAt(m, i); }
    forall a | a in m'.waiters ensures WaiterAt(m', a) { if a in m.waiters { assert WaiterAt(m, a); } }
    forall a | a in m'.waiters ensures NamesAt(m', f, l', a) { if a in m.waiters { assert NamesAt(m, f, l, a); } }
  }

  lemma ExitKeeps(m: Mem, f: Fid, l: Local, m': Mem, l': Local, g: Fid)
    requires MemInv(m) && FiberInv(m, f, l) && Exit(m, l, m', l')
    ensures MemInv(m') && FiberInv(m', f, l') && (g != f ==> Env(m, m', g))
  {
    assert NamesAt(m, f, l, l.me);
    forall i | 0 <= i < |m'.pend| ensures PendAt(m', i) { assert PendAt(m, i); }
    forall a | a in m'.waiters ensures WaiterAt(m', a) { if a in m.waiters { assert WaiterAt(m, a); } }
    forall a | a in m'.waiters ensures NamesAt(m', f, l', a) { if a in m.waiters { assert NamesAt(m, f, l, a); } }
  }

  lemma ClaimKeeps(m: Mem, f: Fid, l: Local, m': Mem, l': Local, g: Fid)
    requires MemInv(m) && FiberInv(m, f, l) && Claim(m, f, l, m', l')
    ensures MemInv(m') && FiberInv(m', f, l') && (g != f ==> Env(m, m', g))
  {
    forall a | a in m'.waiters ensures WaiterAt(m', a) { if a in m.waiters { assert WaiterAt(m, a); } }
    forall a | a in m'.waiters ensures NamesAt(m', f, l', a) { if a in m.waiters { assert NamesAt(m, f, l, a); } }
  }

  lemma TakeOverKeeps(m: Mem, f: Fid, l: Local, m': Mem, l': Local, g: Fid)
    requires MemInv(m) && FiberInv(m, f, l) && TakeOver(m, f, l, m', l')
    ensures MemInv(m') && FiberInv(m', f, l') && (g != f ==> Env(m, m', g))
  {
    if |m.pend| > 0 { assert PendAt(m, |m.pend| - 1); }
    forall a | a in m'.waiters ensures WaiterAt(m', a) { if a in m.waiters { assert WaiterAt(m, a); } }
    forall j | 0 <= j < |l'.todo| ensures TodoAt(m', f, l', j) { assert PendAt(m, j); }
    forall a | a in m'.waiters ensures NamesAt(m', f, l', a) { if a in m.waiters { assert NamesAt(m, f, l, a) && WaiterAt(m, a); } }
  }

  lemma SetNextKeeps(m: Mem, f: Fid, l: Local, m': Mem, l': Local, g: Fid)
    requires MemInv(m) && FiberInv(m, f, l) && SetNext(m, l, m', l')
    ensures MemInv(m') && FiberInv(m', f, l') && (g != f ==> Env(m, m', g))
  {
    forall i | 0 <= i < |m'.pend| ensures PendAt(m', i) { assert PendAt(m, i); }
    forall a | a in m'.waiters ensures WaiterAt(m', a) { if a in m.waiters { assert WaiterAt(m, a); } }
    forall a | a in m'.waiters ensures NamesAt(m', f, l', a) { if a in m.waiters { assert NamesAt(m, f, l, a); } }
  }

  lemma JoinKeeps(m: Mem, f: Fid, l: Local, m': Mem, l': Local, g: Fid)
    requires MemInv(m) && FiberInv(m, f, l) && Join(m, l, m', l')
    ensures MemInv(m') && FiberInv(m', f, l') && (g != f ==> Env(m, m', g))
  {
    forall i | 0 <= i < |m'.pend| ensures PendAt(m', i) { if i < |m.pend| { assert PendAt(m, i); } }
    forall a | a in m'.waiters ensures WaiterAt(m', a) { if a in m.waiters { assert WaiterAt(m, a); } }
    forall a | a in m'.waiters ensures NamesAt(m', f, l', a) { if a in m.waiters { assert NamesAt(m, f, l, a); } }
  }

  lemma OwnTaskKeeps(m: Mem, f: Fid, l: Local, m': Mem, l': Local, g: Fid)
    requires MemInv(m) && FiberInv(m, f, l) && OwnTask(m, l, m', l')
    ensures MemInv(m') && FiberInv(m', f, l') && (g != f ==> Env(m, m', g))
  {
    forall i | 0 <= i < |m'.pend| ensures PendAt(m', i) { assert PendAt(m, i); }
    forall a | a in m'.waiters ensures WaiterAt(m', a) { if a in m.waiters { assert WaiterAt(m, a); } }
    forall j | 0 <= j < |l'.todo| ensures TodoAt(m', f, l', j) { assert TodoAt(m, f, l, j); }
    forall a | a in m'.waiters ensures NamesAt(m', f, l', a) { if a in m.waiters { assert NamesAt(m, f, l, a); } }
  }

  lemma FetchKeeps(m: Mem, f: Fid, l: Local, m': Mem, l': Local, g: Fid)
    requires MemInv(m) && FiberInv(m, f, l) && Fetch(m, f, l, m', l')
    ensures MemInv(m') && FiberInv(m', f, l') && (g != f ==> Env(m, m', g))
  {
    if |m.pend| > 0 { assert PendAt(m, |m.pend| - 1); }
    forall a | a in m'.waiters ensures WaiterAt(m', a) { if a in m.waiters { assert WaiterAt(m, a); } }
    forall j | 0 <= j < |l'.todo| ensures TodoAt(m', f, l', j) { assert PendAt(m, j); }
    forall a | a in m'.waiters ensures NamesAt(m', f, l', a) { if a in m.waiters { assert NamesAt(m, f, l, a) && WaiterAt(m, a); } }
  }

  lemma BatchTaskKeeps(m: Mem, f: Fid, l: Local, m': Mem, l': Local, g: Fid)
    requires MemInv(m) && FiberInv(m, f, l) && BatchTask(m, l, m', l')
    ensures MemInv(m') && FiberInv(m', f, l') && (g != f ==> Env(m, m', g))
  {
    Current(m, f, l);
    forall i | 0 <= i < |m'.pend| ensures PendAt(m', i) { assert PendAt(m, i); }
    forall a | a in m'.waiters ensures WaiterAt(m', a) { if a in m.waiters { assert WaiterAt(m, a); } }
    forall j | 0 <= j < |l'.todo| ensures TodoAt(m', f, l', j) { assert TodoAt(m, f, l, j); }
    forall a | a in m'.waiters ensures NamesAt(m', f, l', a) { if a in m.waiters { assert NamesAt(m, f, l, a); } }
  }

  lemma HandOverKeeps(m: Mem, f: Fid, l: Local, m': Mem, l': Local, g: Fid)
    requires MemInv(m) && FiberInv(m, f, l) && HandOver(m, l, m', l')
    ensures MemInv(m') && FiberInv(m', f, l') && (g != f ==> Env(m, m', g))
  {
    Current(m, f, l);
    forall i | 0 <= i < |m'.pend| ensures PendAt(m', i) { assert PendAt(m, i); }
    forall a | a in m'.waiters ensures WaiterAt(m', a) { if a in m.waiters { assert WaiterAt(m, a); } }
    forall j | 0 <= j < |l'.todo| ensures TodoAt(m', f, l', j) { assert TodoAt(m, f, l, j); }
    forall a | a in m'.waiters ensures NamesAt(m', f, l', a) { if a in m.waiters { assert NamesAt(m, f, l, a); } }
  }

  lemma ScheduleKeeps(m: Mem, f: Fid, l: Local, m': Mem, l': Local, g: Fid)
    requires MemInv(m) && FiberInv(m, f, l) && Schedule(m, l, m', l')
    ensures MemInv(m') && FiberInv(m', f, l') && (g != f ==> Env(m, m', g))
  {
    Current(m, f, l);
    forall i | 0 <= i < |m'.pend| ensures PendAt(m', i) { assert PendAt(m, i); }
    forall a | a in m'.waiters ensures WaiterAt(m', a) { if a in m.waiters { assert WaiterAt(m, a); } }
    forall j | 0 <= j < |l'.todo| ensures TodoAt(m', f, l', j) { assert TodoAt(m, f, l, j); }
    forall a | a in m'.waiters ensures NamesAt(m', f, l', a) { if a in m.waiters { assert NamesAt(m, f, l, a); } }
  }

  // ---- every step keeps the invariant -------------------------------------------------

  lemma ActionKeeps(m: Mem, f: Fid, l: Local, m': Mem, l': Local, g: Fid)
    requires MemInv(m) && FiberInv(m, f, l) && Action(m, f, l, m', l')
    ensures MemInv(m') && FiberInv(m', f, l') && (g != f ==> Env(m, m', g))
  {
    if m' == m && l' == l.(pc := l'.pc) && Read(m, l, l'.pc) { ReadOwn(m, f, l, l'); }
    else if Enter(m, f, l, m', l') { EnterKeeps(m, f, l, m', l', g); }
    else if Exit(m, l, m', l') { ExitKeeps(m, f, l, m', l', g); }
    else if Claim(m, f, l, m', l') { ClaimKeeps(m, f, l, m', l', g); }
    else if TakeOver(m, f, l, m', l') { TakeOverKeeps(m, f, l, m', l', g); }
    else if SetNext(m, l, m', l') { SetNextKeeps(m, f, l, m', l', g); }
    else if Join(m, l, m', l') { JoinKeeps(m, f, l, m', l', g); }
    else if OwnTask(m, l, m', l') { OwnTaskKeeps(m, f, l, m', l', g); }
    else if Fetch(m, f, l, m', l') { FetchKeeps(m, f, l, m', l', g); }
    else if BatchTask(m, l, m', l') { BatchTaskKeeps(m, f, l, m', l', g); }
    else if HandOver(m, l, m', l') { HandOverKeeps(m, f, l, m', l', g); }
    else if Schedule(m, l, m', l') { ScheduleKeeps(m, f, l, m', l', g); }
  }

  lemma ActionKnown(m: Mem, f: Fid, l: Local, m': Mem, l': Local, fibers: set<Fid>)
    requires MemInv(m) && FiberInv(m, f, l) && Action(m, f, l, m', l') && f in fibers && Known(m, fibers)
    ensures Known(m', fibers)
  {
    if m'.owner.Some? && m'.owner.value !in fibers { ActionKeeps(m, f, l, m', l', m'.owner.value); }
    forall a | a in m'.waiters ensures KnownAt(m', fibers, a) {
      forall g | g !in fibers ensures m'.waiters[a].fiber != g && (m'.waiters[a].role.Batched? ==> m'.waiters[a].role.u != g) {
        ActionKeeps(m, f, l, m', l', g);
        assert EnvAt(m, m', g, a);
        if a in m.waiters { assert KnownAt(m, fibers, a); }
      }
    }
  }

  /** Every step of every fiber keeps the invariant. */
  lemma StepKeeps(s: State, f: Fid, s': State)
    requires Inv(s) && FiberStep(s, f, s')
    ensures Inv(s')
  {
    var l, l' := s.fibers[f], s'.fibers[f];
    ActionKeeps(s.m, f, l, s'.m, l', f);
    ActionKnown(s.m, f, l, s'.m, l', s.fibers.Keys);
    assert s'.fibers.Keys == s.fibers.Keys;
    forall g | g in s'.fibers ensures FiberInv(s'.m, g, s'.fibers[g]) {
      if g != f {
        ActionKeeps(s.m, f, l, s'.m, l', g);
        Stable(s.m, s'.m, g, s.fibers[g]);
      }
    }
  }

  lemma {:induction false} RunKeeps(run: seq<State>, i: nat)
    requires IsRun(run) && i < |run|
    ensures Inv(run[i])
  {
    if i > 0 {
      RunKeeps(run, i - 1);
      assert Next(run[i - 1], run[i]);
      var f :| FiberStep(run[i - 1], f, run[i]);
      StepKeeps(run[i - 1], f, run[i]);
    }
  }
}

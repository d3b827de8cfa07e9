/**
What the strand promises its callers, in every reachable state: one combiner at
a time, each critical section exactly once and before its call returns, no use
of a waiter that was scheduled, and no waiter left behind.
*/
module StrandTheorems {
  import opened Strand
  import opened StrandProof

  // ---- safety --------------------------------------------------------------------

  /** About to run a critical section. */
  predicate Critical(pc: Pc)
  {
    pc.RunOwn? || pc.BatchRun?
  }

  /** The waiter whose critical section runs next. */
  function Runs(l: Local): Addr
  {
    if l.pc.RunOwn? then l.me else l.cur
  }

  lemma OneCombiner(s: State, f: Fid, g: Fid)
    requires Inv(s) && f in s.fibers && g in s.fibers
    requires Owning(s.fibers[f].pc, s.fibers[f].cur) && Owning(s.fibers[g].pc, s.fibers[g].cur)
    ensures f == g
  {
    assert FiberInv(s.m, f, s.fibers[f]) && FiberInv(s.m, g, s.fibers[g]);
  }

  /** Critical sections exclude each other, and each runs for the first time. */
  lemma RunsAlone(s: State, f: Fid, g: Fid)
    requires Inv(s) && f in s.fibers && g in s.fibers && Critical(s.fibers[f].pc) && Critical(s.fibers[g].pc)
    ensures f == g && Runs(s.fibers[f]) in s.m.waiters && s.m.waiters[Runs(s.fibers[f])].runs == 0
  {
    OneCombiner(s, f, g);
    assert FiberInv(s.m, f, s.fibers[f]);
    if s.fibers[f].pc.BatchRun? { Current(s.m, f, s.fibers[f]); }
  }

  /** The section of a call has run exactly once when the call returns, and never more than once before. */
  lemma ReturnsAfterOneRun(s: State, f: Fid)
    requires Inv(s) && f in s.fibers && s.fibers[f].pc != Idle
    ensures s.fibers[f].me in s.m.waiters && s.m.waiters[s.fibers[f].me].runs <= 1
    ensures s.fibers[f].pc == Leave ==> s.m.waiters[s.fibers[f].me].runs == 1
  {
    var m, l := s.m, s.fibers[f];
    assert FiberInv(m, f, l) && WaiterAt(m, l.me);
    var w := m.waiters[l.me];
    if w.role.Pending? {
      assert PendAt(m, w.role.i);
    } else if w.role.Batched? {
      var u := w.role.u;
      assert KnownAt(m, s.fibers.Keys, l.me);
      assert FiberInv(m, u, s.fibers[u]) && NamesAt(m, u, s.fibers[u], l.me);
      assert TodoAt(m, u, s.fibers[u], w.role.j);
    }
  }

  /** The waiter of another call that the next step accesses. */
  function Touches(l: Local): Addr
  {
    if l.pc.BatchNext? || l.pc.BatchRun? || l.pc.BatchSchedule? then l.cur else 0
  }

  /**
   A combiner accesses a waiter only while the fiber it belongs to is suspended
   in Combine and has not been scheduled, so the waiter is still on its stack.
   */
  lemma TouchesSuspended(s: State, f: Fid)
    requires Inv(s) && f in s.fibers && Touches(s.fibers[f]) != 0
    ensures var a := Touches(s.fibers[f]);
            && a in s.m.waiters && s.m.waiters[a].role != Released
            && s.m.waiters[a].fiber in s.fibers
            && s.fibers[s.m.waiters[a].fiber] == s.fibers[s.m.waiters[a].fiber].(pc := Waiting, me := a)
  {
    var m, l := s.m, s.fibers[f];
    assert FiberInv(m, f, l);
    Current(m, f, l);
    assert KnownAt(m, s.fibers.Keys, l.cur);
    var g := m.waiters[l.cur].fiber;
    assert FiberInv(m, g, s.fibers[g]) && NamesAt(m, g, s.fibers[g], l.cur);
  }

  /** Nobody but its own fiber knows a waiter that is private or released, so it may leave the stack. */
  lemma LeavesCleanly(s: State, f: Fid)
    requires Inv(s) && f in s.fibers && s.fibers[f].pc == Leave
    ensures forall i :: 0 <= i < |s.m.pend| ==> s.m.pend[i] != s.fibers[f].me
    ensures forall g, j :: g in s.fibers && 0 <= j < |s.fibers[g].todo| ==> s.fibers[g].todo[j] != s.fibers[f].me
  {
    var m, me := s.m, s.fibers[f].me;
    assert FiberInv(m, f, s.fibers[f]);
    forall i | 0 <= i < |m.pend| ensures m.pend[i] != me { assert PendAt(m, i); }
    forall g, j | g in s.fibers && 0 <= j < |s.fibers[g].todo| ensures s.fibers[g].todo[j] != me {
      assert FiberInv(m, g, s.fibers[g]) && TodoAt(m, g, s.fibers[g], j);
    }
  }

  // ---- no waiter is stranded --------------------------------------------------------

  /** Between the hand-over at the end of a batch and the check for a list left behind. */
  predicate BeforeCheck(m: Mem, l: Local)
  {
    || l.pc == BatchSchedule(0) || l.pc == Check || l.pc == CheckCas(m.head)
    || (l.pc == Waiting && l.me in m.waiters && m.waiters[l.me].role == Released)
  }

  lemma FreeListHasHeir(s: State)
    requires Inv(s) && s.m.head.Free?
    ensures exists f :: f in s.fibers && BeforeCheck(s.m, s.fibers[f])
  {
    var m := s.m;
    var w := m.waiters[m.heir];
    assert KnownAt(m, s.fibers.Keys, m.heir);
    var f := if w.role.Batched? then w.role.u else w.fiber;
    assert FiberInv(m, f, s.fibers[f]) && NamesAt(m, f, s.fibers[f], m.heir);
    assert BeforeCheck(m, s.fibers[f]);
  }

  /** Suspended in the strand and not scheduled. */
  predicate Parked(m: Mem, l: Local)
  {
    l.pc == Waiting && l.me in m.waiters && m.waiters[l.me].role != Released
  }

  predicate Active(m: Mem, l: Local)
  {
    l.pc != Idle && !Parked(m, l)
  }

  /** While a fiber is parked, some fiber inside Combine is not. */
  lemma ParkedHasActive(s: State, f: Fid)
    requires Inv(s) && f in s.fibers && Parked(s.m, s.fibers[f])
    ensures exists g :: g in s.fibers && Active(s.m, s.fibers[g])
  {
    var m, me := s.m, s.fibers[f].me;
    assert FiberInv(m, f, s.fibers[f]) && WaiterAt(m, me);
    if m.waiters[me].role.Batched? {
      var g := m.waiters[me].role.u;
      assert KnownAt(m, s.fibers.Keys, me);
      assert FiberInv(m, g, s.fibers[g]) && NamesAt(m, g, s.fibers[g], me);
      assert Active(m, s.fibers[g]);
    } else if m.head.Free? {
      FreeListHasHeir(s);
      var g :| g in s.fibers && BeforeCheck(m, s.fibers[g]);
      assert Active(m, s.fibers[g]);
    } else {
      var g := m.owner.value;
      assert FiberInv(m, g, s.fibers[g]);
      assert Active(m, s.fibers[g]);
    }
  }

  /** An active fiber always has a step, so a state in which no fiber can move has nobody parked. */
  lemma ActiveMoves(s: State, f: Fid)
    requires Inv(s) && f in s.fibers && Active(s.m, s.fibers[f])
    ensures exists s' :: FiberStep(s, f, s')
  {
    assert FiberInv(s.m, f, s.fibers[f]);
    if s.fibers[f].todo != [] { Current(s.m, f, s.fibers[f]); }
    var m', l' := Move(s.m, f, s.fibers[f]);
    assert FiberStep(s, f, State(m', s.fibers[f := l']));
  }

  lemma Move(m: Mem, f: Fid, l: Local) returns (m': Mem, l': Local)
    requires Shape(l) && OwnWaiter(m, f, l) && Active(m, l) && (l.todo != [] ==> l.cur in m.waiters)
    ensures Action(m, f, l, m', l')
  {
    m' := m;
    match l.pc {
      case FirstLoad => l' := l.(pc := if m.head == Null then FirstCas else AwaitLoad);
      case FirstCas =>
        if m.head == Null { m', l' := m.(head := Dummy, owner := Some(f)), l.(pc := RunOwn); }
        else { l' := l.(pc := AwaitLoad); }
      case AwaitLoad => l' := l.(pc := AwaitTry(m.head));
      case AwaitTry(was) =>
        if was == Dummy || was.Busy? {
          m', l' := SetWaiter(m, l.me, m.waiters[l.me].(next := Strip(was))), l.(pc := AwaitPush(was));
        } else if m.head != was {
          l' := l.(pc := AwaitTry(m.head));
        } else if was == Null {
          m', l' := m.(head := Dummy, owner := Some(f)), l.(pc := RunOwn);
        } else {
          m' := m.(head := Dummy, owner := Some(f), heir := 0, pend := [], waiters := Batch(m, f));
          l' := l.(pc := RunOwn, cur := Strip(m.head), todo := m.pend);
        }
      case AwaitPush(was) =>
        if m.head != was { l' := l.(pc := AwaitTry(m.head)); }
        else {
          m' := SetWaiter(m, l.me, m.waiters[l.me].(role := Pending(|m.pend|))).(head := Busy(l.me), pend := m.pend + [l.me]);
          l' := l.(pc := Waiting);
        }
      case Waiting => l' := l.(pc := Check);
      case Check => l' := l.(pc := if m.head.Free? then CheckCas(m.head) else Leave);
      case CheckCas(was) =>
        if m.head != was { l' := l.(pc := Leave); }
        else {
          m' := m.(head := Dummy, owner := Some(f), heir := 0, pend := [], waiters := Batch(m, f));
          l' := l.(pc := BatchNext, cur := Strip(m.head), todo := m.pend);
        }
      case RunOwn =>
        m' := SetWaiter(m, l.me, m.waiters[l.me].(runs := m.waiters[l.me].runs + 1));
        l' := l.(pc := if l.cur == 0 then FetchLoad else BatchNext);
      case FetchLoad => l' := l.(pc := FetchTry(m.head));
      case FetchTry(seen) =>
        if m.head != seen { l' := l.(pc := FetchTry(m.head)); }
        else if m.head == Dummy { m', l' := m.(head := Null, owner := None), l.(pc := Leave); }
        else {
          m' := m.(head := Dummy, pend := [], waiters := Batch(m, f));
          l' := l.(pc := BatchNext, cur := Strip(m.head), todo := m.pend);
        }
      case BatchNext => l' := l.(pc := BatchRun(m.waiters[l.cur].next));
      case BatchRun(next) =>
        m' := SetWaiter(m, l.cur, m.waiters[l.cur].(runs := m.waiters[l.cur].runs + 1));
        l' := l.(pc := if next == 0 then EndLoad else BatchSchedule(next));
      case EndLoad => l' := l.(pc := EndTry(m.head));
      case EndTry(seen) =>
        if m.head != seen { l' := l.(pc := EndTry(m.head)); }
        else {
          m' := if m.head == Dummy then m.(head := Null, owner := None)
                else m.(head := Free(Strip(m.head)), owner := None, heir := l.cur);
          l' := l.(pc := BatchSchedule(0));
        }
      case BatchSchedule(next) =>
        m' := SetWaiter(m, l.cur, m.waiters[l.cur].(role := Released));
        l' := l.(pc := if next == 0 then Leave else BatchNext, cur := next, todo := DropTop(l.todo));
      case Leave => m', l' := m.(waiters := m.waiters - {l.me}), Local(Idle, 0, 0, []);
    }
  }
}

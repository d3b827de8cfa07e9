/**
Which task a worker gets.  The history of a run is read off what the threads hand over and what they
hold afterwards, never off the queues themselves; the queues turn out to be first in, first out, the
LIFO slot to hold the latest hinted task, and the global queue to be asked first every 61st time.
*/
module FastPoolOrder {
  import opened FastPool
  import opened FastPoolProof
  import opened FastPoolWakeups

  /** A run together with the thread that makes each step. */
  ghost predicate Scheduled(run: seq<Pool>, ts: seq<nat>)
  {
    IsRun(run) && |ts| == |run| - 1 && forall i :: 0 <= i < |ts| ==> ThreadStep(run[i], ts[i], run[i + 1])
  }

  lemma {:induction false} HasSchedule(run: seq<Pool>) returns (ts: seq<nat>)
    requires IsRun(run)
    ensures Scheduled(run, ts)
  {
    var n := |run| - 1;
    ts := [];
    if n > 0 {
      var before := run[..n];
      forall i | 0 < i < n ensures Next(before[i - 1], before[i]) { assert Next(run[i - 1], run[i]); }
      ts := HasSchedule(before);
      assert Next(run[n - 1], run[n]);
      var t: nat :| ThreadStep(run[n - 1], t, run[n]);
      forall i | 0 <= i < n - 1 ensures ThreadStep(run[i], ts[i], run[i + 1]) {
        assert ThreadStep(before[i], ts[i], before[i + 1]);
      }
      ts := ts + [t];
    }
  }

  lemma RunShaped(run: seq<Pool>, n: nat)
    requires IsRun(run) && n < |run|
    ensures Shaped(run[n])
  {
    RunKeeps(run, n);
  }

  lemma SameSize(s: Pool, t: nat, s': Pool)
    requires Shaped(s) && ThreadStep(s, t, s')
    ensures |s'.threads| == |s.threads|
  {
    StepFrame(s, t, s');
  }

  function PcAt(s: Pool, t: nat): Pc
  {
    if t < |s.threads| then s.threads[t].pc else Aborted
  }

  // ---- the global queue ----------------------------------------------------------------------

  /** What the thread at pc hands over to the global queue. */
  function Handed(pc: Pc): seq<Task>
  {
    match pc
    case Outside(x) => [x]
    case Yielding(x) => [x]
    case Spilling(xs) => xs
    case _ => []
  }

  /** What the thread holds after it looked at the global queue. */
  function Fetched(pc: Pc, pc': Pc): seq<Task>
  {
    if !(pc.PickFirst? || pc.PickGlobal? || pc.LastGlobal?) then []
    else if pc'.Got? then [pc'.x]
    else if pc'.Waking? && pc'.k.ToTask? then [pc'.k.x]
    else []
  }

  function Entered(run: seq<Pool>, ts: seq<nat>, n: nat): seq<Task>
    requires n <= |ts| && n < |run|
  {
    if n == 0 then [] else Entered(run, ts, n - 1) + Handed(PcAt(run[n - 1], ts[n - 1]))
  }

  function Left(run: seq<Pool>, ts: seq<nat>, n: nat): seq<Task>
    requires n <= |ts| && n < |run|
  {
    if n == 0 then [] else Left(run, ts, n - 1) + Fetched(PcAt(run[n - 1], ts[n - 1]), PcAt(run[n], ts[n - 1]))
  }

  lemma GlobalStep(s: Pool, t: nat, s': Pool)
    requires Shaped(s) && ThreadStep(s, t, s')
    ensures s.global + Handed(PcAt(s, t)) == Fetched(PcAt(s, t), PcAt(s', t)) + s'.global
  {
    StepFrame(s, t, s');
    if SubmitStep(s, t, s') { GlobalSubmit(s, t, s'); }
    else if PickStep(s, t, s') { GlobalPick(s, t, s'); }
    else if ParkStep(s, t, s') { GlobalPark(s, t, s'); }
    else { GlobalRest(s, t, s'); }
  }

  lemma GlobalSubmit(s: Pool, t: nat, s': Pool)
    requires t < |s.threads| && SubmitStep(s, t, s')
    ensures s.global + Handed(PcAt(s, t)) == Fetched(PcAt(s, t), PcAt(s', t)) + s'.global
  {}

  lemma GlobalPick(s: Pool, t: nat, s': Pool)
    requires t < |s.threads| && PickStep(s, t, s')
    ensures s.global + Handed(PcAt(s, t)) == Fetched(PcAt(s, t), PcAt(s', t)) + s'.global
  {}

  lemma GlobalPark(s: Pool, t: nat, s': Pool)
    requires t < |s.threads| && ParkStep(s, t, s')
    ensures s.global + Handed(PcAt(s, t)) == Fetched(PcAt(s, t), PcAt(s', t)) + s'.global
  {}

  lemma GlobalRest(s: Pool, t: nat, s': Pool)
    requires t < |s.threads| && (StartSubmit(s, t, s') || WakeStep(s, t, s') || StealStep(s, t, s'))
    ensures s.global + Handed(PcAt(s, t)) == Fetched(PcAt(s, t), PcAt(s', t)) + s'.global
  {}

  /** What left the global queue, followed by what is in it, is what entered it, in that order. */
  lemma {:induction false} GlobalIsFifo(run: seq<Pool>, ts: seq<nat>, n: nat)
    requires Scheduled(run, ts) && n < |run|
    ensures Entered(run, ts, n) == Left(run, ts, n) + run[n].global
  {
    if n > 0 {
      GlobalIsFifo(run, ts, n - 1);
      RunShaped(run, n - 1);
      assert ThreadStep(run[n - 1], ts[n - 1], run[n]);
      GlobalStep(run[n - 1], ts[n - 1], run[n]);
      Append(Left(run, ts, n - 1), run[n - 1].global, Handed(PcAt(run[n - 1], ts[n - 1])),
             Fetched(PcAt(run[n - 1], ts[n - 1]), PcAt(run[n], ts[n - 1])), run[n].global);
    }
  }

  lemma Append<X>(left: seq<X>, q: seq<X>, more: seq<X>, less: seq<X>, q': seq<X>)
    requires q + more == less + q'
    ensures left + q + more == left + less + q'
  {
    assert left + q + more == left + (q + more);
    assert left + less + q' == left + (less + q');
  }

  // ---- the ring of a worker ---------------------------------------------------------------------

  /** What the thread t pushes to the ring of v. */
  function Pushed(t: nat, pc: Pc, pc': Pc, v: nat): seq<Task>
  {
    if t != v then []
    else if pc.Pushing? && pc'.Notify? then [pc.x]
    else if pc.Stashing? && pc'.Stashing? && pc.rest != [] then [pc.rest[0]]
    else []
  }

  /** What the thread t holds of the ring of v after a pop, an offload or a steal. */
  function Popped(t: nat, pc: Pc, pc': Pc, v: nat): seq<Task>
  {
    if t == v && pc.PickLocal? && pc'.Got? then [pc'.x]
    else if t == v && pc.Offloading? && pc'.Spilling? && pc'.xs != [] then pc'.xs[..|pc'.xs| - 1]
    else if pc.Grabbing? && pc.order != [] && pc.order[0] == v && pc'.Stashing? then pc'.rest + [pc'.x]
    else []
  }

  function AllPushed(run: seq<Pool>, ts: seq<nat>, n: nat, v: nat): seq<Task>
    requires n <= |ts| && n < |run|
  {
    if n == 0 then []
    else AllPushed(run, ts, n - 1, v) + Pushed(ts[n - 1], PcAt(run[n - 1], ts[n - 1]), PcAt(run[n], ts[n - 1]), v)
  }

  function AllPopped(run: seq<Pool>, ts: seq<nat>, n: nat, v: nat): seq<Task>
    requires n <= |ts| && n < |run|
  {
    if n == 0 then []
    else AllPopped(run, ts, n - 1, v) + Popped(ts[n - 1], PcAt(run[n - 1], ts[n - 1]), PcAt(run[n], ts[n - 1]), v)
  }

  predicate RingMoves(s: Pool, t: nat, s': Pool, v: nat)
    requires v < |s.threads| == |s'.threads|
  {
    s.threads[v].ring + Pushed(t, PcAt(s, t), PcAt(s', t), v) == Popped(t, PcAt(s, t), PcAt(s', t), v) + s'.threads[v].ring
  }

  lemma RingStep(s: Pool, t: nat, s': Pool, v: nat)
    requires Shaped(s) && ThreadStep(s, t, s') && v < |s.threads|
    ensures |s'.threads| == |s.threads| && RingMoves(s, t, s', v)
  {
    StepFrame(s, t, s');
    assert ThreadOk(s.cap, s.workers, t, s.threads[t]);
    if StealStep(s, t, s') { RingSteal(s, t, s', v); }
    else if SubmitStep(s, t, s') { RingSubmit(s, t, s', v); }
    else if PickStep(s, t, s') { RingPick(s, t, s', v); }
    else { RingRest(s, t, s', v); }
  }

  lemma RingSubmit(s: Pool, t: nat, s': Pool, v: nat)
    requires t < |s.threads| && SubmitStep(s, t, s') && v < |s.threads|
    ensures |s'.threads| == |s.threads| && RingMoves(s, t, s', v)
  {
    if s.threads[t].pc.Offloading? { OffloadMoves(s, t, s'); }
  }

  lemma RingPick(s: Pool, t: nat, s': Pool, v: nat)
    requires t < |s.threads| && PickStep(s, t, s') && v < |s.threads|
    ensures |s'.threads| == |s.threads| && RingMoves(s, t, s', v)
  {}

  lemma RingSteal(s: Pool, t: nat, s': Pool, v: nat)
    requires t < |s.threads| && StealStep(s, t, s') && v < |s.threads| && ThreadOk(s.cap, s.workers, t, s.threads[t])
    ensures |s'.threads| == |s.threads| && RingMoves(s, t, s', v)
  {
    var pc := s.threads[t].pc;
    if pc.Grabbing? && s' != Go(s, t, Stealing(pc.order[1..], pc.park)) {
      var j :| 0 < j <= pc.n && j <= |s.threads[pc.order[0]].ring| && s' == Stolen(s, t, pc.order[0], j, pc.park);
      StolenIsFront(s, t, pc.order[0], j, pc.park);
    }
  }

  lemma RingRest(s: Pool, t: nat, s': Pool, v: nat)
    requires t < |s.threads| && (StartSubmit(s, t, s') || WakeStep(s, t, s') || ParkStep(s, t, s')) && v < |s.threads|
    ensures |s'.threads| == |s.threads| && RingMoves(s, t, s', v)
  {
    RingStays(s, t, s', v);
    var pc := s.threads[t].pc;
    assert !pc.Pushing? && !pc.Stashing? && !pc.PickLocal? && !pc.Offloading? && !pc.Grabbing?;
  }

  lemma RingStays(s: Pool, t: nat, s': Pool, v: nat)
    requires t < |s.threads| && (StartSubmit(s, t, s') || WakeStep(s, t, s') || ParkStep(s, t, s')) && v < |s.threads|
    ensures |s'.threads| == |s.threads| && s'.threads[v].ring == s.threads[v].ring
  {}

  /** The same for the ring of each worker, own pops, offloads and steals together. */
  lemma {:induction false} RingIsFifo(run: seq<Pool>, ts: seq<nat>, n: nat, v: nat)
    requires Scheduled(run, ts) && n < |run| && v < |run[0].threads|
    ensures |run[n].threads| == |run[0].threads| && AllPushed(run, ts, n, v) == AllPopped(run, ts, n, v) + run[n].threads[v].ring
  {
    if n > 0 {
      RingIsFifo(run, ts, n - 1, v);
      RunShaped(run, n - 1);
      var s, t, s' := run[n - 1], ts[n - 1], run[n];
      assert ThreadStep(s, t, s');
      RingStep(s, t, s', v);
      Append(AllPopped(run, ts, n - 1, v), s.threads[v].ring, Pushed(t, PcAt(s, t), PcAt(s', t), v),
             Popped(t, PcAt(s, t), PcAt(s', t), v), s'.threads[v].ring);
    }
  }

  // ---- the LIFO slot ----------------------------------------------------------------------------------

  /** The task last submitted with the hint Next, unless the slot was looked at since. */
  function Latest(run: seq<Pool>, ts: seq<nat>, n: nat, v: nat): Option<Task>
    requires n <= |ts| && n < |run|
  {
    if n == 0 then None
    else
      var pc := PcAt(run[n - 1], v);
      if ts[n - 1] == v && pc.Hinted? then Some(pc.x)
      else if ts[n - 1] == v && pc.PickLifo? then None
      else Latest(run, ts, n - 1, v)
  }

  lemma SlotStep(s: Pool, t: nat, s': Pool, v: nat)
    requires Shaped(s) && ThreadStep(s, t, s') && v < |s.threads|
    ensures |s'.threads| == |s.threads| && s'.threads[v].lifo == if t == v then Slot(s.threads[v]) else s.threads[v].lifo
  {
    StepFrame(s, t, s');
    if t == v {
      if SubmitStep(s, t, s') || StartSubmit(s, t, s') { SlotSubmit(s, t, s'); }
      else if PickStep(s, t, s') { SlotPick(s, t, s'); }
      else if StealStep(s, t, s') { SlotSteal(s, t, s'); }
      else { SlotRest(s, t, s'); }
    }
  }

  function Slot(th: Thread): Option<Task>
  {
    if th.pc.Hinted? then Some(th.pc.x) else if th.pc.PickLifo? then None else th.lifo
  }

  lemma SlotSubmit(s: Pool, t: nat, s': Pool)
    requires t < |s.threads| && (SubmitStep(s, t, s') || StartSubmit(s, t, s'))
    ensures |s'.threads| == |s.threads| && s'.threads[t].lifo == Slot(s.threads[t])
  {}

  lemma SlotPick(s: Pool, t: nat, s': Pool)
    requires t < |s.threads| && PickStep(s, t, s')
    ensures |s'.threads| == |s.threads| && s'.threads[t].lifo == Slot(s.threads[t])
  {}

  lemma SlotSteal(s: Pool, t: nat, s': Pool)
    requires t < |s.threads| && StealStep(s, t, s')
    ensures |s'.threads| == |s.threads| && s'.threads[t].lifo == Slot(s.threads[t])
  {}

  lemma SlotRest(s: Pool, t: nat, s': Pool)
    requires t < |s.threads| && (WakeStep(s, t, s') || ParkStep(s, t, s'))
    ensures |s'.threads| == |s.threads| && s'.threads[t].lifo == Slot(s.threads[t])
  {}

  lemma {:induction false} SlotIsLatest(run: seq<Pool>, ts: seq<nat>, n: nat, v: nat)
    requires Scheduled(run, ts) && n < |run| && v < |run[0].threads|
    ensures |run[n].threads| == |run[0].threads| && run[n].threads[v].lifo == Latest(run, ts, n, v)
  {
    if n > 0 {
      SlotIsLatest(run, ts, n - 1, v);
      RunShaped(run, n - 1);
      assert ThreadStep(run[n - 1], ts[n - 1], run[n]);
      SlotStep(run[n - 1], ts[n - 1], run[n], v);
    }
  }

  /** What a look at the slot gives, and what becomes of the task that a hinted one replaces. */
  lemma SlotGives(run: seq<Pool>, ts: seq<nat>, n: nat)
    requires Scheduled(run, ts) && n < |ts|
    ensures var pc, pc', x := PcAt(run[n], ts[n]), PcAt(run[n + 1], ts[n]), Latest(run, ts, n, ts[n]);
            && (pc.PickLifo? ==> pc' == if x.Some? then Got(x.value) else PickLocal(pc.again))
            && (pc.Hinted? ==> pc' == if x.Some? then Pushing(x.value) else Notify(ToRunning))
  {
    var s, t, s' := run[n], ts[n], run[n + 1];
    assert ThreadStep(s, t, s');
    Sizes(run, ts, n);
    SlotIsLatest(run, ts, n, t);
    SlotAnswers(s, t, s');
  }

  lemma SlotAnswers(s: Pool, t: nat, s': Pool)
    requires ThreadStep(s, t, s')
    ensures var pc, pc', x := PcAt(s, t), PcAt(s', t), s.threads[t].lifo;
            && (pc.PickLifo? ==> pc' == if x.Some? then Got(x.value) else PickLocal(pc.again))
            && (pc.Hinted? ==> pc' == if x.Some? then Pushing(x.value) else Notify(ToRunning))
  {}

  lemma {:induction false} Sizes(run: seq<Pool>, ts: seq<nat>, n: nat)
    requires Scheduled(run, ts) && n < |run|
    ensures |run[n].threads| == |run[0].threads|
  {
    if n > 0 {
      Sizes(run, ts, n - 1);
      RunShaped(run, n - 1);
      assert ThreadStep(run[n - 1], ts[n - 1], run[n]);
      SameSize(run[n - 1], ts[n - 1], run[n]);
    }
  }

  lemma {:induction false} LatestStays(run: seq<Pool>, ts: seq<nat>, a: nat, b: nat, v: nat)
    requires a < b <= |ts| < |run| && ts[a] == v && PcAt(run[a], v).Hinted?
    requires forall i :: a < i < b && ts[i] == v ==> !PcAt(run[i], v).Hinted? && !PcAt(run[i], v).PickLifo?
    ensures Latest(run, ts, b, v) == Some(PcAt(run[a], v).x)
  {
    if a + 1 < b { LatestStays(run, ts, a, b - 1, v); }
  }

  /** A task submitted with the hint Next is what its worker gets at its next look at the slot, unless replaced. */
  lemma NextIsNext(run: seq<Pool>, ts: seq<nat>, a: nat, b: nat)
    requires Scheduled(run, ts) && a < b < |ts| && ts[a] == ts[b] && PcAt(run[a], ts[a]).Hinted? && PcAt(run[b], ts[b]).PickLifo?
    requires forall i :: a < i < b && ts[i] == ts[a] ==> !PcAt(run[i], ts[a]).Hinted? && !PcAt(run[i], ts[a]).PickLifo?
    ensures PcAt(run[b + 1], ts[b]) == Got(PcAt(run[a], ts[a]).x)
  {
    LatestStays(run, ts, a, b, ts[a]);
    SlotGives(run, ts, b);
  }

  // ---- every 61st time -----------------------------------------------------------------------------------

  predicate StartsPick(pc: Pc)
  {
    pc.PickFirst? || pc.PickLifo?
  }

  /** The thread begins another PickTask; a second TryPickTask after a park is not one. */
  predicate Begins(pc: Pc, pc': Pc)
  {
    (pc.Running? || pc.PickGlobal?) && StartsPick(pc')
  }

  /** How often v has begun a PickTask; it starts inside the first one. */
  function Picks(run: seq<Pool>, ts: seq<nat>, n: nat, v: nat): nat
    requires n <= |ts| && n < |run|
  {
    if n == 0 then 1
    else Picks(run, ts, n - 1, v) + if ts[n - 1] == v && Begins(PcAt(run[n - 1], v), PcAt(run[n], v)) then 1 else 0
  }

  lemma IterStep(s: Pool, t: nat, s': Pool)
    requires Shaped(s) && ThreadStep(s, t, s')
    ensures |s'.threads| == |s.threads|
    ensures s'.threads[t].iter == s.threads[t].iter + if Begins(PcAt(s, t), PcAt(s', t)) then 1 else 0
    ensures (Begins(PcAt(s, t), PcAt(s', t)) || (PcAt(s, t).Parking? && StartsPick(PcAt(s', t)))) ==>
              (PcAt(s', t).PickFirst? <==> s'.threads[t].iter % 61 == 0)
  {
    StepFrame(s, t, s');
    if PickStep(s, t, s') { IterPick(s, t, s'); }
    else if ParkStep(s, t, s') { IterPark(s, t, s'); }
    else if StealStep(s, t, s') { IterSteal(s, t, s'); }
    else { IterRest(s, t, s'); }
  }

  lemma IterPick(s: Pool, t: nat, s': Pool)
    requires t < |s.threads| && PickStep(s, t, s')
    ensures |s'.threads| == |s.threads| && !PcAt(s, t).Parking?
    ensures s'.threads[t].iter == s.threads[t].iter + if Begins(PcAt(s, t), PcAt(s', t)) then 1 else 0
    ensures Begins(PcAt(s, t), PcAt(s', t)) ==> (PcAt(s', t).PickFirst? <==> s'.threads[t].iter % 61 == 0)
  {}

  lemma IterPark(s: Pool, t: nat, s': Pool)
    requires t < |s.threads| && ParkStep(s, t, s')
    ensures |s'.threads| == |s.threads| && s'.threads[t].iter == s.threads[t].iter && !Begins(PcAt(s, t), PcAt(s', t))
    ensures StartsPick(PcAt(s', t)) ==> (PcAt(s', t).PickFirst? <==> s'.threads[t].iter % 61 == 0)
  {}

  lemma IterSteal(s: Pool, t: nat, s': Pool)
    requires t < |s.threads| && StealStep(s, t, s')
    ensures |s'.threads| == |s.threads| && s'.threads[t].iter == s.threads[t].iter && !StartsPick(PcAt(s', t))
  {}

  lemma IterRest(s: Pool, t: nat, s': Pool)
    requires t < |s.threads| && (StartSubmit(s, t, s') || SubmitStep(s, t, s') || WakeStep(s, t, s'))
    ensures |s'.threads| == |s.threads| && s'.threads[t].iter == s.threads[t].iter && !StartsPick(PcAt(s', t))
  {}

  lemma OtherIter(s: Pool, t: nat, s': Pool, v: nat)
    requires Shaped(s) && ThreadStep(s, t, s') && v < |s.threads| && v != t
    ensures |s'.threads| == |s.threads| && s'.threads[v].iter == s.threads[v].iter
  {
    StepFrame(s, t, s');
  }

  lemma {:induction false} IterIsPicks(run: seq<Pool>, ts: seq<nat>, n: nat, v: nat)
    requires Scheduled(run, ts) && n < |run| && v < |run[0].threads|
    ensures |run[n].threads| == |run[0].threads| && run[n].threads[v].iter == Picks(run, ts, n, v)
  {
    if n > 0 {
      IterIsPicks(run, ts, n - 1, v);
      RunShaped(run, n - 1);
      assert ThreadStep(run[n - 1], ts[n - 1], run[n]);
      if ts[n - 1] == v { IterStep(run[n - 1], v, run[n]); } else { OtherIter(run[n - 1], ts[n - 1], run[n], v); }
    }
  }

  /** Every 61st PickTask, and a retry after a park within it, asks the global queue first; no other does. */
  lemma GlobalFirst(run: seq<Pool>, ts: seq<nat>, n: nat)
    requires Scheduled(run, ts) && n < |ts|
    requires var pc := PcAt(run[n], ts[n]); (pc.Running? || pc.PickGlobal? || pc.Parking?) && StartsPick(PcAt(run[n + 1], ts[n]))
    ensures PcAt(run[n + 1], ts[n]).PickFirst? <==> Picks(run, ts, n + 1, ts[n]) % 61 == 0
  {
    var t := ts[n];
    assert ThreadStep(run[n], t, run[n + 1]);
    Sizes(run, ts, n);
    RunShaped(run, n);
    IterStep(run[n], t, run[n + 1]);
    IterIsPicks(run, ts, n + 1, t);
  }

  // ---- the order of polling ---------------------------------------------------------------------------------

  predicate Polling(pc: Pc)
  {
    pc.PickFirst? || pc.PickLifo? || pc.PickLocal? || pc.PickGlobal?
  }

  function Front(q: seq<Task>): Option<Task>
  {
    if q == [] then None else Some(q[0])
  }

  function OrElse(a: Option<Task>, b: Option<Task>): Option<Task>
  {
    if a.Some? then a else b
  }

  /** What TryPickTask finds from here on: global queue if it is its turn, slot, own ring, global queue. */
  function Poll(s: Pool, t: nat): Option<Task>
    requires t < |s.threads|
  {
    var th := s.threads[t];
    OrElse(if th.pc.PickFirst? then Front(s.global) else None,
    OrElse(if th.pc.PickFirst? || th.pc.PickLifo? then th.lifo else None,
    OrElse(if !th.pc.PickGlobal? then Front(th.ring) else None,
           Front(s.global))))
  }

  lemma PollStep(s: Pool, t: nat, s': Pool)
    requires ThreadStep(s, t, s') && Polling(s.threads[t].pc) && ThreadOk(s.cap, s.workers, t, s.threads[t])
    ensures |s'.threads| == |s.threads|
    ensures var pc' := s'.threads[t].pc;
            || (Polling(pc') && Poll(s', t) == Poll(s, t))
            || (pc' == if Poll(s, t).Some? then Got(Poll(s, t).value) else SpinUp)
  {}

  /** A worker that polls undisturbed gets the first task in that order, and goes on to steal only if there is none. */
  lemma {:induction false} PollsInOrder(run: seq<Pool>, t: nat)
    requires |run| > 1 && t < |run[0].threads| && Shaped(run[0])
    requires forall i :: 0 <= i < |run| - 1 ==> ThreadStep(run[i], t, run[i + 1]) && Polling(PcAt(run[i], t))
    requires !Polling(PcAt(run[|run| - 1], t))
    ensures var pc := PcAt(run[|run| - 1], t);
            if Poll(run[0], t).Some? then pc == Got(Poll(run[0], t).value) else pc == SpinUp
    decreases |run|
  {
    assert ThreadStep(run[0], t, run[1]) && Polling(PcAt(run[0], t));
    assert ThreadOk(run[0].cap, run[0].workers, t, run[0].threads[t]);
    PollStep(run[0], t, run[1]);
    if |run| > 2 {
      ShapeKeeps(run[0], t, run[1]);
      assert Polling(PcAt(run[1], t));
      var rest := run[1..];
      forall i | 0 <= i < |rest| - 1 ensures ThreadStep(rest[i], t, rest[i + 1]) && Polling(PcAt(rest[i], t)) {
        assert ThreadStep(run[i + 1], t, run[i + 2]) && Polling(PcAt(run[i + 1], t));
      }
      PollsInOrder(rest, t);
    }
  }

  // ---- waiters ------------------------------------------------------------------------------------------------

  function Listing(t: nat, pc: Pc): seq<nat>
  {
    if pc.PushWaiter? then [t] else []
  }

  function Roused(pc: Pc, pc': Pc): seq<nat>
  {
    if pc.Waking? && pc'.Bumping? then [pc'.w] else []
  }

  function AllListed(run: seq<Pool>, ts: seq<nat>, n: nat): seq<nat>
    requires n <= |ts| && n < |run|
  {
    if n == 0 then [] else AllListed(run, ts, n - 1) + Listing(ts[n - 1], PcAt(run[n - 1], ts[n - 1]))
  }

  function AllRoused(run: seq<Pool>, ts: seq<nat>, n: nat): seq<nat>
    requires n <= |ts| && n < |run|
  {
    if n == 0 then [] else AllRoused(run, ts, n - 1) + Roused(PcAt(run[n - 1], ts[n - 1]), PcAt(run[n], ts[n - 1]))
  }

  predicate WaitersMove(s: Pool, t: nat, s': Pool)
  {
    s.waiters + Listing(t, PcAt(s, t)) == Roused(PcAt(s, t), PcAt(s', t)) + s'.waiters
  }

  lemma WaitersStep(s: Pool, t: nat, s': Pool)
    requires ThreadStep(s, t, s')
    ensures WaitersMove(s, t, s')
  {
    if WakeStep(s, t, s') { WaitersWake(s, t, s'); }
    else if ParkStep(s, t, s') { WaitersPark(s, t, s'); }
    else { WaitersRest(s, t, s'); }
  }

  lemma WaitersWake(s: Pool, t: nat, s': Pool)
    requires t < |s.threads| && WakeStep(s, t, s')
    ensures WaitersMove(s, t, s')
  {
    var pc := s.threads[t].pc;
    if pc.Waking? && pc.n > 0 && s.waiters != [] { assert s'.threads[t].pc.w == s.waiters[0]; }
  }

  lemma WaitersPark(s: Pool, t: nat, s': Pool)
    requires t < |s.threads| && ParkStep(s, t, s')
    ensures WaitersMove(s, t, s')
  {}

  lemma WaitersRest(s: Pool, t: nat, s': Pool)
    requires t < |s.threads| && (StartSubmit(s, t, s') || SubmitStep(s, t, s') || PickStep(s, t, s') || StealStep(s, t, s'))
    ensures WaitersMove(s, t, s')
  {}

  /** Workers are woken in the order in which they announced themselves. */
  lemma {:induction false} WaitersAreFifo(run: seq<Pool>, ts: seq<nat>, n: nat)
    requires Scheduled(run, ts) && n < |run|
    ensures AllListed(run, ts, n) == AllRoused(run, ts, n) + run[n].waiters
  {
    if n > 0 {
      WaitersAreFifo(run, ts, n - 1);
      var s, t, s' := run[n - 1], ts[n - 1], run[n];
      assert ThreadStep(s, t, s');
      WaitersStep(s, t, s');
      Append(AllRoused(run, ts, n - 1), s.waiters, Listing(t, PcAt(s, t)), Roused(PcAt(s, t), PcAt(s', t)), s'.waiters);
    }
  }

  /** Calls of PopWaiter that the thread still makes. */
  function Attempts(pc: Pc): nat
  {
    match pc
    case Waking(n, _) => n
    case Bumping(_, n, _) => n
    case Unparking(_, n, _) => n
    case _ => 0
  }

  predicate Wakes(pc: Pc)
  {
    pc.Waking? || pc.Bumping? || pc.Unparking?
  }

  /** How many workers are woken here, if there are as many waiters: Submit one, a steal three, a task found before parking six. */
  function Budget(s: Pool, t: nat): nat
    requires t < |s.threads|
  {
    match s.threads[t].pc
    case Notify(_) => if s.spinning == 0 then 1 else 0
    case SpinDown(_) => 3
    case LastGlobal(_) => if s.global != [] then 6 else 0
    case Stashing(rest, _, park) => if rest == [] && park.Some? then 6 else 0
    case _ => 0
  }

  /** The waiters that remain after n have been woken. */
  function Rest(waiters: seq<nat>, n: nat): seq<nat>
  {
    if n <= |waiters| then waiters[n..] else []
  }

  lemma WakesStep(s: Pool, t: nat, s': Pool)
    requires ThreadStep(s, t, s') && Wakes(s.threads[t].pc)
    ensures |s'.threads| == |s.threads| && WakeStep(s, t, s')
    ensures Rest(s'.waiters, Attempts(PcAt(s', t))) == Rest(s.waiters, Attempts(PcAt(s, t)))
  {
    assert WakeStep(s, t, s');
    WakesOne(s, t, s');
  }

  lemma WakesOne(s: Pool, t: nat, s': Pool)
    requires t < |s.threads| && WakeStep(s, t, s') && Wakes(s.threads[t].pc)
    ensures |s'.threads| == |s.threads|
    ensures Rest(s'.waiters, Attempts(PcAt(s', t))) == Rest(s.waiters, Attempts(PcAt(s, t)))
  {}

  lemma BudgetStep(s: Pool, t: nat, s': Pool)
    requires ThreadStep(s, t, s') && Budget(s, t) > 0
    ensures |s'.threads| == |s.threads| && s'.waiters == s.waiters
    ensures Wakes(PcAt(s', t)) && Attempts(PcAt(s', t)) == Budget(s, t)
  {}

  /** A thread that wakes others undisturbed takes exactly the first ones, as many as its budget says. */
  lemma {:induction false} WakesFirst(run: seq<Pool>, t: nat)
    requires |run| > 1 && t < |run[0].threads| && Budget(run[0], t) > 0
    requires forall i :: 0 <= i < |run| - 1 ==> ThreadStep(run[i], t, run[i + 1])
    requires forall i :: 0 < i < |run| - 1 ==> Wakes(PcAt(run[i], t))
    requires !Wakes(PcAt(run[|run| - 1], t))
    ensures run[|run| - 1].waiters == Rest(run[0].waiters, Budget(run[0], t))
  {
    assert ThreadStep(run[0], t, run[1]);
    BudgetStep(run[0], t, run[1]);
    WakesOn(run, t, |run| - 1);
  }

  lemma {:induction false} WakesOn(run: seq<Pool>, t: nat, n: nat)
    requires 1 <= n < |run| && t < |run[1].threads|
    requires forall i :: 0 <= i < |run| - 1 ==> ThreadStep(run[i], t, run[i + 1])
    requires forall i :: 0 < i < |run| - 1 ==> Wakes(PcAt(run[i], t))
    ensures Rest(run[n].waiters, Attempts(PcAt(run[n], t))) == Rest(run[1].waiters, Attempts(PcAt(run[1], t)))
  {
    if n > 1 {
      WakesOn(run, t, n - 1);
      assert ThreadStep(run[n - 1], t, run[n]) && Wakes(PcAt(run[n - 1], t));
      WakesStep(run[n - 1], t, run[n]);
    }
  }
}

/**
No wake-up is lost: as long as the global queue holds a task, somebody is bound to look
at it.  When nobody can move, every submitted task has been picked.
*/
module FastPoolWakeups {
  import opened FastPool
  import opened FastPoolProof
  import opened Sums

  // ---- who will look at the global queue -----------------------------------------------------------

  /**
  A worker that will look at the global queue before it blocks, or has a wake-up pending;
  or a submitter that has yet to notify.
  */
  predicate Helps(s: Pool, u: nat)
    requires u < |s.threads|
  {
    var th := s.threads[u];
    if u < s.workers then
      !Settled(th.pc) || th.wakeups != Seen(th.pc)
    else
      th.pc.Notify? || (th.pc.Waking? && th.pc.n > 0) || th.pc.Bumping?
  }

  ghost predicate Attended(s: Pool)
  {
    s.global != [] ==> exists u :: 0 <= u < |s.threads| && Helps(s, u)
  }

  /** A worker that has announced itself and was not woken since is in the list of waiters, or about to be woken. */
  ghost predicate Listed(s: Pool, w: nat)
    requires w < |s.threads|
  {
    var th := s.threads[w];
    Announced(th.pc) && th.wakeups == Seen(th.pc) ==>
      w in s.waiters || exists u :: 0 <= u < |s.threads| && Bumps(s.threads[u].pc, w)
  }

  predicate Bumps(pc: Pc, w: nat)
  {
    pc.Bumping? && pc.w == w
  }

  predicate Unparks(pc: Pc, w: nat)
  {
    pc.Unparking? && pc.w == w
  }

  /** A worker that sleeps although its word has changed is about to be unparked. */
  ghost predicate Rousing(s: Pool, w: nat)
    requires w < |s.threads|
  {
    var th := s.threads[w];
    th.pc.Asleep? && th.wakeups != th.pc.seen ==> exists u :: 0 <= u < |s.threads| && Unparks(s.threads[u].pc, w)
  }

  ghost predicate Inv(s: Pool)
  {
    && Shaped(s) && SpinsCounted(s)
    && (forall a: Task :: Conserved(s, a))
    && Attended(s)
    && (forall w {:trigger Listed(s, w)} :: 0 <= w < s.workers ==> Listed(s, w))
    && (forall w {:trigger Rousing(s, w)} :: 0 <= w < s.workers ==> Rousing(s, w))
  }

  // ---- waiters ------------------------------------------------------------------------------------------

  /** How a worker comes to be announced, and what it has seen. */
  lemma AnnouncedBefore(s: Pool, t: nat, s': Pool, w: nat)
    requires Shaped(s) && ThreadStep(s, t, s') && w < s.workers && Shaped(s') && |s'.threads| == |s.threads|
    requires Announced(s'.threads[w].pc) && s'.threads[w].wakeups == Seen(s'.threads[w].pc)
    ensures (w == t && s.threads[t].pc.PushWaiter?)
            || (Announced(s.threads[w].pc) && s.threads[w].wakeups == Seen(s.threads[w].pc) && !Bumps(s.threads[t].pc, w))
  {
    assert ThreadOk(s.cap, s.workers, w, s.threads[w]) && ThreadOk(s.cap, s.workers, t, s.threads[t]);
    if w == t { StepWaiters(s, t, s'); } else { StepFrame(s, t, s'); }
  }

  /** A thread that is announced was so before, or has just entered the list. */
  predicate Continues(s: Pool, t: nat, s': Pool)
    requires t < |s.threads| == |s'.threads|
  {
    var th, th' := s.threads[t], s'.threads[t];
    Announced(th'.pc) ==> th.pc.PushWaiter? || (Announced(th.pc) && Seen(th.pc) == Seen(th'.pc) && th.wakeups == th'.wakeups)
  }

  /** What a step does to the list of waiters. */
  predicate WaitersMove(s: Pool, t: nat, s': Pool)
    requires t < |s.threads| == |s'.threads|
  {
    if s.threads[t].pc.PushWaiter? then
      s'.waiters == s.waiters + [t]
    else
      || s'.waiters == s.waiters
      || (s.waiters != [] && s'.waiters == s.waiters[1..] && Bumps(s'.threads[t].pc, s.waiters[0]) && !s.threads[t].pc.Bumping?)
  }

  lemma BusyWaiters(s: Pool, t: nat, s': Pool)
    requires t < |s.threads| && (StartSubmit(s, t, s') || SubmitStep(s, t, s'))
    ensures |s'.threads| == |s.threads| && !Announced(s'.threads[t].pc) && WaitersMove(s, t, s')
  {}

  lemma PickWaiters(s: Pool, t: nat, s': Pool)
    requires t < |s.threads| && PickStep(s, t, s')
    ensures |s'.threads| == |s.threads| && !Announced(s'.threads[t].pc) && WaitersMove(s, t, s')
  {}

  lemma WakeWaiters(s: Pool, t: nat, s': Pool)
    requires t < |s.threads| && WakeStep(s, t, s')
    ensures |s'.threads| == |s.threads| && !Announced(s'.threads[t].pc) && WaitersMove(s, t, s')
  {}

  lemma StealWaiters(s: Pool, t: nat, s': Pool)
    requires Shaped(s) && t < |s.threads| && StealStep(s, t, s')
    ensures |s'.threads| == |s.threads| && Continues(s, t, s') && WaitersMove(s, t, s') && !s'.threads[t].pc.Asleep?
  {
    assert ThreadOk(s.cap, s.workers, t, s.threads[t]);
  }

  lemma ParkWaiters(s: Pool, t: nat, s': Pool)
    requires t < |s.threads| && ParkStep(s, t, s')
    ensures |s'.threads| == |s.threads| && Continues(s, t, s') && WaitersMove(s, t, s') && SleepsRightly(s'.threads[t])
  {}

  /** A thread goes to sleep only if its word has not changed. */
  predicate SleepsRightly(th: Thread)
  {
    th.pc.Asleep? ==> th.wakeups == th.pc.seen
  }

  lemma StepWaiters(s: Pool, t: nat, s': Pool)
    requires Shaped(s) && ThreadStep(s, t, s')
    ensures |s'.threads| == |s.threads| && Continues(s, t, s') && WaitersMove(s, t, s') && SleepsRightly(s'.threads[t])
  {
    if WakeStep(s, t, s') { WakeWaiters(s, t, s'); }
    else if StealStep(s, t, s') { StealWaiters(s, t, s'); }
    else if ParkStep(s, t, s') { ParkWaiters(s, t, s'); }
    else if PickStep(s, t, s') { PickWaiters(s, t, s'); }
    else { BusyWaiters(s, t, s'); }
  }

  lemma ListedKeeps(s: Pool, t: nat, s': Pool, w: nat)
    requires Shaped(s) && ThreadStep(s, t, s') && w < s.workers && Listed(s, w) && Shaped(s') && |s'.threads| == |s.threads|
    ensures Listed(s', w)
  {
    if Announced(s'.threads[w].pc) && s'.threads[w].wakeups == Seen(s'.threads[w].pc) {
      AnnouncedBefore(s, t, s', w);
      StepWaiters(s, t, s');
      StepFrame(s, t, s');
      if w == t && s.threads[t].pc.PushWaiter? {
        assert s'.waiters[|s.waiters|] == t;
      } else if w in s.waiters {
        if w !in s'.waiters { assert w == s.waiters[0]; assert Bumps(s'.threads[t].pc, w); }
      } else {
        var u :| 0 <= u < |s.threads| && Bumps(s.threads[u].pc, w);
        assert u != t;
        assert Bumps(s'.threads[u].pc, w);
      }
    }
  }

  lemma RousingKeeps(s: Pool, t: nat, s': Pool, w: nat)
    requires Shaped(s) && ThreadStep(s, t, s') && w < s.workers && Rousing(s, w) && |s'.threads| == |s.threads|
    ensures Rousing(s', w)
  {
    StepFrame(s, t, s');
    assert ThreadOk(s.cap, s.workers, w, s.threads[w]);
    if s'.threads[w].pc.Asleep? && s'.threads[w].wakeups != s'.threads[w].pc.seen {
      if Bumps(s.threads[t].pc, w) {
        assert Unparks(s'.threads[t].pc, w);
      } else {
        StillAsleep(s, t, s', w);
        var u :| 0 <= u < |s.threads| && Unparks(s.threads[u].pc, w);
        assert Unparks(s'.threads[u].pc, w);
      }
    }
  }

  lemma StillAsleep(s: Pool, t: nat, s': Pool, w: nat)
    requires Shaped(s) && ThreadStep(s, t, s') && w < s.workers && |s'.threads| == |s.threads|
    requires s'.threads[w].pc.Asleep? && s'.threads[w].wakeups != s'.threads[w].pc.seen && !Bumps(s.threads[t].pc, w)
    ensures s'.threads[w] == s.threads[w] && w != t && !Unparks(s.threads[t].pc, w)
  {
    if w == t {
      StepWaiters(s, t, s');
      assert false;
    }
    assert ThreadOk(s.cap, s.workers, w, s.threads[w]) && ThreadOk(s.cap, s.workers, t, s.threads[t]);
    StepFrame(s, t, s');
  }

  // ---- attention ---------------------------------------------------------------------------------------------

  lemma SomeoneSpins(s: Pool)
    requires Shaped(s) && SpinsCounted(s) && s.spinning != 0
    ensures exists u :: 0 <= u < s.workers && Helps(s, u) && Spins(s.threads[u].pc)
  {
    if forall u :: 0 <= u < |s.threads| ==> !Spins(s.threads[u].pc) {
      SumAllZero(SpinList(s.threads));
      assert false;
    }
    var u :| 0 <= u < |s.threads| && Spins(s.threads[u].pc);
    assert ThreadOk(s.cap, s.workers, u, s.threads[u]);
    assert u < s.workers && Helps(s, u);
  }

  /** An empty list of waiters means that some worker is not settled, or about to be woken. */
  lemma NoWaiters(s: Pool) returns (u: nat)
    requires Shaped(s) && s.waiters == [] && Listed(s, 0)
    ensures u < |s.threads| && Helps(s, u) && (u < s.workers || s.threads[u].pc.Bumping?)
  {
    var th := s.threads[0];
    if Settled(th.pc) && th.wakeups == Seen(th.pc) {
      u :| 0 <= u < |s.threads| && Bumps(s.threads[u].pc, 0);
    } else {
      u := 0;
    }
  }

  /** A worker stops helping only after it has seen the global queue empty. */
  lemma WorkerAttends(s: Pool, t: nat, s': Pool)
    requires Shaped(s) && Shaped(s') && ThreadStep(s, t, s') && t < s.workers && |s'.threads| == |s.threads| && s'.workers == s.workers
    ensures Helps(s', t) || s'.global == [] || (s'.global == s.global && !Helps(s, t) && Settled(s.threads[t].pc))
  {
    assert ThreadOk(s.cap, s.workers, t, s.threads[t]) && ThreadOk(s'.cap, s'.workers, t, s'.threads[t]);
    if Settled(s'.threads[t].pc) { Settling(s, t, s'); }
  }

  /** Only LastGlobal leads past the last look at the queue. */
  lemma Settling(s: Pool, t: nat, s': Pool)
    requires Shaped(s) && ThreadStep(s, t, s') && |s'.threads| == |s.threads| && Settled(s'.threads[t].pc)
    ensures s'.global == s.global && s'.threads[t].wakeups == s.threads[t].wakeups
    ensures (s.threads[t].pc.LastGlobal? && s.global == []) || (Settled(s.threads[t].pc) && Seen(s'.threads[t].pc) == Seen(s.threads[t].pc))
  {
    StepWaiters(s, t, s');
    assert ThreadOk(s.cap, s.workers, t, s.threads[t]);
  }

  /** What another thread does to a helper leaves it a helper. */
  lemma HelperStays(s: Pool, t: nat, s': Pool, u: nat)
    requires Shaped(s) && ThreadStep(s, t, s') && u < |s.threads| == |s'.threads| && u != t && Helps(s, u)
    ensures Helps(s', u)
  {
    StepFrame(s, t, s');
    assert ThreadOk(s.cap, s.workers, u, s.threads[u]);
  }

  /** An outside thread hands its duty on. */
  lemma OutsiderAttends(s: Pool, t: nat, s': Pool)
    requires Inv(s) && Shaped(s') && ThreadStep(s, t, s') && s.workers <= t && |s'.threads| == |s.threads| && s'.workers == s.workers
    requires s'.global != [] && Helps(s, t) && !Helps(s', t)
    ensures exists u :: 0 <= u < |s'.threads| && Helps(s', u)
  {
    var pc := s.threads[t].pc;
    assert ThreadOk(s.cap, s.workers, t, s.threads[t]);
    if pc.Notify? {
      SomeoneSpins(s);
      var u :| 0 <= u < s.workers && Helps(s, u) && Spins(s.threads[u].pc);
      HelperStays(s, t, s', u);
    } else if pc.Waking? {
      assert Listed(s, 0);
      var u := NoWaiters(s);
      HelperStays(s, t, s', u);
    } else {
      StepFrame(s, t, s');
      assert ThreadOk(s.cap, s.workers, pc.w, s.threads[pc.w]);
      assert Helps(s', pc.w);
    }
  }

  /** Only Notify follows the push of an outside thread. */
  lemma OutsiderPushes(s: Pool, t: nat, s': Pool)
    requires Shaped(s) && ThreadStep(s, t, s') && s.workers <= t
    ensures |s'.threads| == |s.threads| && s'.workers == s.workers && (s'.global == s.global || s'.threads[t].pc.Notify?)
  {
    assert ThreadOk(s.cap, s.workers, t, s.threads[t]);
  }

  lemma AttendedKeeps(s: Pool, t: nat, s': Pool)
    requires Inv(s) && Shaped(s') && ThreadStep(s, t, s') && |s'.threads| == |s.threads| && s'.workers == s.workers
    ensures Attended(s')
  {
    if s'.global != [] && !Helps(s', t) {
      if t < s.workers { WorkerAttends(s, t, s'); } else { OutsiderPushes(s, t, s'); }
      if t >= s.workers && Helps(s, t) {
        OutsiderAttends(s, t, s');
      } else {
        var u :| 0 <= u < |s.threads| && Helps(s, u);
        HelperStays(s, t, s', u);
      }
    }
  }

  // ---- the whole system ---------------------------------------------------------------------------------------

  lemma StepKeeps(s: Pool, t: nat, s': Pool)
    requires Inv(s) && ThreadStep(s, t, s')
    ensures Inv(s')
  {
    StepFrame(s, t, s');
    ShapeKeeps(s, t, s');
    SpinsKeep(s, t, s');
    forall a: Task ensures Conserved(s', a) { TasksKeep(s, t, s', a); }
    AttendedKeeps(s, t, s');
    forall w | 0 <= w < s'.workers ensures Listed(s', w) { assert Listed(s, w); ListedKeeps(s, t, s', w); }
    forall w | 0 <= w < s'.workers ensures Rousing(s', w) { assert Rousing(s, w); RousingKeeps(s, t, s', w); }
  }

  lemma InitHolds(s: Pool)
    requires Init(s)
    ensures Inv(s)
  {
    forall t | 0 <= t < |s.threads| ensures ThreadOk(s.cap, s.workers, t, s.threads[t]) {}
    SumAllZero(SpinList(s.threads));
    forall a: Task ensures Conserved(s, a) { SumAllZero(OwnList(s.threads, a)); }
  }

  lemma {:induction false} RunKeeps(run: seq<Pool>, n: nat)
    requires IsRun(run) && n < |run|
    ensures Inv(run[n])
  {
    if n == 0 {
      InitHolds(run[0]);
    } else {
      RunKeeps(run, n - 1);
      assert Next(run[n - 1], run[n]);
      var t: nat :| ThreadStep(run[n - 1], t, run[n]);
      StepKeeps(run[n - 1], t, run[n]);
    }
  }

  // ---- what it means for a run ---------------------------------------------------------------------------------

  /** Whatever the interleaving, a non-empty global queue never goes unattended. */
  lemma NoLostWakeup(run: seq<Pool>, n: nat)
    requires IsRun(run) && n < |run| && run[n].global != []
    ensures exists u :: 0 <= u < |run[n].threads| && Helps(run[n], u)
  {
    RunKeeps(run, n);
  }

  /** Every task that was submitted is in one place, or has been picked once. */
  lemma TasksConserved(run: seq<Pool>, n: nat, a: Task)
    requires IsRun(run) && n < |run|
    ensures run[n].submitted[a] == run[n].picked[a] + Occurs(run[n].global, a) + Sum(OwnList(run[n].threads, a))
  {
    RunKeeps(run, n);
    assert Conserved(run[n], a);
  }

  /** A stolen task always fits into the ring of the thief. */
  lemma NeverAborts(run: seq<Pool>, n: nat, t: nat)
    requires IsRun(run) && n < |run| && t < |run[n].threads|
    ensures !run[n].threads[t].pc.Aborted?
    ensures run[n].threads[t].pc.Stashing? && run[n].threads[t].pc.rest != [] ==> |run[n].threads[t].ring| < run[n].cap
    ensures |run[n].threads[t].ring| <= run[n].cap
  {
    RunKeeps(run, n);
    assert ThreadOk(run[n].cap, run[n].workers, t, run[n].threads[t]);
  }

  predicate AtRest(s: Pool)
  {
    forall t :: 0 <= t < |s.threads| ==> s.threads[t].pc.Idle? || s.threads[t].pc.Asleep?
  }

  /** If all workers sleep and nobody is inside Submit, then no task is left anywhere. */
  lemma RestMeansDone(run: seq<Pool>, n: nat)
    requires IsRun(run) && n < |run| && AtRest(run[n])
    ensures run[n].global == [] && run[n].submitted == run[n].picked
  {
    RunKeeps(run, n);
    var s := run[n];
    forall u | 0 <= u < |s.threads| ensures !Helps(s, u) {
      assert ThreadOk(s.cap, s.workers, u, s.threads[u]);
      if u < s.workers { assert Rousing(s, u); }
    }
    forall a: Task ensures s.submitted[a] == s.picked[a] {
      assert Conserved(s, a);
      forall t | 0 <= t < |s.threads| ensures Own(s.threads[t], a) == 0 {
        assert ThreadOk(s.cap, s.workers, t, s.threads[t]);
      }
      SumAllZero(OwnList(s.threads, a));
    }
  }

  function Others(workers: nat, t: nat): seq<nat>
    requires t < workers
  {
    seq(workers - 1, i requires 0 <= i < workers - 1 => if i < t then i else i + 1)
  }

  /** Nobody else is ever stuck: a thread that neither sleeps nor is outside the pool has a next step. */
  lemma OthersMove(run: seq<Pool>, n: nat, t: nat)
    requires IsRun(run) && n < |run| && t < |run[n].threads| && !run[n].threads[t].pc.Idle? && !run[n].threads[t].pc.Asleep?
    ensures exists s' :: ThreadStep(run[n], t, s')
  {
    RunKeeps(run, n);
    var s, th := run[n], run[n].threads[t];
    assert ThreadOk(s.cap, s.workers, t, th);
    if th.pc.SpinUp? || th.pc.LastGlobal? {
      var s' := ParkMoves(s, t);
    } else if Lean(th.pc) || th.pc.Stashing? || th.pc.SpinDown? {
      var s' := StealMoves(s, t);
    } else if th.pc.Notify? || th.pc.Waking? || th.pc.Bumping? || th.pc.Unparking? {
      var s' := WakeMoves(s, t);
    } else {
      var s' := BusyMoves(s, t);
    }
  }

  lemma ParkMoves(s: Pool, t: nat) returns (s': Pool)
    requires Shaped(s) && t < s.workers && (s.threads[t].pc.SpinUp? || s.threads[t].pc.LastGlobal?)
    ensures ThreadStep(s, t, s')
  {
    var order := Others(s.workers, t);
    assert IsOrder(s, t, order);
    if s.threads[t].pc.SpinUp? {
      s' := Go(s, t, Stealing(order, None)).(spinning := s.spinning + 1);
    } else if s.global != [] {
      s' := PopGlobal(s, t, Waking(6, ToTask(s.global[0])));
    } else {
      s' := Go(s, t, Stealing(order, Some(s.threads[t].pc.seen)));
    }
  }

  lemma StealMoves(s: Pool, t: nat) returns (s': Pool)
    requires Shaped(s) && t < |s.threads|
    requires var pc := s.threads[t].pc;
             || pc.Stealing? || pc.Grabbing? || pc.Stashing? || pc.SpinDown?
             || pc.ReadWakeups? || pc.PushWaiter? || pc.Unspin? || pc.Parking?
    ensures ThreadStep(s, t, s')
  {
    var th := s.threads[t];
    assert ThreadOk(s.cap, s.workers, t, th);
    match th.pc
    case Stealing(order, park) =>
      s' := Go(s, t, if order == [] then (if park.None? then ReadWakeups else Parking(park.value)) else Stealing(order[1..], park));
    case Grabbing(m, order, park) => s' := Go(s, t, Stealing(order[1..], park));
    case Stashing(rest, x, park) =>
      s' := if rest == [] then Go(s, t, if park.None? then SpinDown(x) else Waking(6, ToTask(x)))
                             else Keep(s, t, th.(ring := th.ring + [rest[0]], pc := Stashing(rest[1..], x, park)));
    case SpinDown(x) => s' := Go(s, t, Waking(3, ToTask(x))).(spinning := s.spinning - 1);
    case ReadWakeups => s' := Go(s, t, PushWaiter(th.wakeups));
    case PushWaiter(seen) => s' := Go(s, t, Unspin(seen)).(waiters := s.waiters + [t]);
    case Unspin(seen) => s' := Go(s, t, LastGlobal(seen)).(spinning := s.spinning - 1);
    case Parking(seen) => s' := Go(s, t, if th.wakeups == seen then Asleep(seen) else FirstPick(th.iter, true));
  }

  lemma WakeMoves(s: Pool, t: nat) returns (s': Pool)
    requires Shaped(s) && t < |s.threads|
    requires var pc := s.threads[t].pc; pc.Notify? || pc.Waking? || pc.Bumping? || pc.Unparking?
    ensures ThreadStep(s, t, s')
  {
    assert ThreadOk(s.cap, s.workers, t, s.threads[t]);
    match s.threads[t].pc
    case Notify(k) => s' := Go(s, t, if s.spinning == 0 then Waking(1, k) else Done(k));
    case Waking(m, k) =>
      s' := if m == 0 then Go(s, t, Done(k)) else if s.waiters == [] then Go(s, t, Waking(m - 1, k))
                            else Go(s, t, Bumping(s.waiters[0], m - 1, k)).(waiters := s.waiters[1..]);
    case Bumping(w, m, k) => s' := Bumped(Go(s, t, Unparking(w, m, k)), w);
    case Unparking(w, m, k) => s' := Unparked(Go(s, t, Waking(m, k)), w);
  }

  lemma BusyMoves(s: Pool, t: nat) returns (s': Pool)
    requires Shaped(s) && t < |s.threads|
    requires var pc := s.threads[t].pc;
             || pc.Outside? || pc.Running? || pc.Yielding? || pc.Hinted? || pc.Pushing? || pc.Offloading? || pc.Spilling?
             || pc.Got? || pc.PickFirst? || pc.PickLifo? || pc.PickLocal? || pc.PickGlobal?
    ensures ThreadStep(s, t, s')
  {
    var th := s.threads[t];
    match th.pc
    case Outside(x) => s' := Go(s, t, Notify(ToIdle)).(global := s.global + [x]);
    case Yielding(x) => s' := Go(s, t, Notify(ToRunning)).(global := s.global + [x]);
    case Hinted(x) =>
      s' := Keep(s, t, th.(lifo := Some(x), pc := if th.lifo.None? then Notify(ToRunning) else Pushing(th.lifo.value)));
    case Pushing(x) =>
      s' := if |th.ring| == s.cap then Go(s, t, Offloading(x)) else Keep(s, t, th.(ring := th.ring + [x], pc := Notify(ToRunning)));
    case Offloading(x) => s' := Keep(s, t, Spilled(th, 0, x));
    case Spilling(xs) => s' := Go(s, t, Notify(ToRunning)).(global := s.global + xs);
    case Got(x) => s' := Go(s, t, Running).(picked := s.picked + multiset{x});
    case Running => s' := Round(s, t);
    case PickFirst(again) => s' := if s.global != [] then PopGlobal(s, t, Got(s.global[0])) else Go(s, t, PickLifo(again));
    case PickLifo(again) =>
      s' := if th.lifo.Some? then Keep(s, t, th.(lifo := None, pc := Got(th.lifo.value))) else Go(s, t, PickLocal(again));
    case PickLocal(again) =>
      s' := if th.ring != [] then Keep(s, t, th.(ring := th.ring[1..], pc := Got(th.ring[0]))) else Go(s, t, PickGlobal(again));
    case PickGlobal(again) =>
      s' := if s.global != [] then PopGlobal(s, t, Got(s.global[0])) else if again then Round(s, t) else Go(s, t, SpinUp);
  }
}

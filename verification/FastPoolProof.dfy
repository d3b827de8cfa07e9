/**
What every step of the pool keeps: no task is lost or duplicated, a stolen task always
fits, and no wake-up is lost.
*/
module FastPoolProof {
  import opened FastPool
  import opened Sums

  // ---- regions of a worker's program -----------------------------------------------------------

  /** Nothing local to run: from the decision to steal until tasks are found. */
  predicate Lean(pc: Pc)
  {
    || pc.SpinUp? || pc.Stealing? || pc.Grabbing? || pc.ReadWakeups? || pc.PushWaiter? || pc.Unspin?
    || pc.LastGlobal? || pc.Parking? || pc.Asleep?
  }

  /** Counted by n_spinning_. */
  predicate Spins(pc: Pc)
  {
    || (pc.Stealing? && pc.park.None?) || (pc.Grabbing? && pc.park.None?) || (pc.Stashing? && pc.park.None?)
    || pc.SpinDown? || pc.ReadWakeups? || pc.PushWaiter? || pc.Unspin?
  }

  /** Past the last look at the global queue, on the way to the futex. */
  predicate Settled(pc: Pc)
  {
    || (pc.Stealing? && pc.park.Some?) || (pc.Grabbing? && pc.park.Some?) || pc.Parking? || pc.Asleep?
  }

  /** Has announced itself as a waiter in this round. */
  predicate Announced(pc: Pc)
  {
    Settled(pc) || pc.Unspin? || pc.LastGlobal?
  }

  function Seen(pc: Pc): nat
  {
    match pc
    case Stealing(_, park) => if park.Some? then park.value else 0
    case Grabbing(_, _, park) => if park.Some? then park.value else 0
    case PushWaiter(seen) => seen
    case Unspin(seen) => seen
    case LastGlobal(seen) => seen
    case Parking(seen) => seen
    case Asleep(seen) => seen
    case _ => 0
  }

  predicate OutsidePc(pc: Pc)
  {
    match pc
    case Idle => true
    case Outside(_) => true
    case Notify(k) => k.ToIdle?
    case Waking(n, k) => k.ToIdle? && n <= 1
    case Bumping(_, n, k) => k.ToIdle? && n == 0
    case Unparking(_, n, k) => k.ToIdle? && n == 0
    case _ => false
  }

  predicate WorkerPc(pc: Pc)
  {
    match pc
    case Idle => false
    case Outside(_) => false
    case Aborted => false
    case Notify(k) => !k.ToIdle?
    case Waking(_, k) => !k.ToIdle?
    case Bumping(_, _, k) => !k.ToIdle?
    case Unparking(_, _, k) => !k.ToIdle?
    case _ => true
  }

  // ---- one thread ---------------------------------------------------------------------------------

  predicate Victims(workers: nat, order: seq<nat>, t: nat)
  {
    forall i :: 0 <= i < |order| ==> order[i] < workers && order[i] != t
  }

  predicate ThreadOk(cap: nat, workers: nat, t: nat, th: Thread)
  {
    && (if t < workers then WorkerPc(th.pc) else OutsidePc(th.pc) && th.ring == [] && th.lifo.None?)
    && |th.ring| <= cap
    && (Lean(th.pc) || th.pc.PickGlobal? ==> th.ring == [] && th.lifo.None?)
    && (th.pc.PickLocal? ==> th.lifo.None?)
    && (th.pc.Stashing? ==> th.lifo.None? && |th.ring| + |th.pc.rest| < cap)
    && (th.pc.Stealing? ==> Victims(workers, th.pc.order, t))
    && (th.pc.Grabbing? ==> Victims(workers, th.pc.order, t) && th.pc.order != [] && 2 * th.pc.n <= cap)
    && (th.pc.Bumping? || th.pc.Unparking? ==> th.pc.w < workers)
    && Seen(th.pc) <= th.wakeups
  }

  predicate Shaped(s: Pool)
  {
    && 2 <= s.cap && 1 <= s.workers <= |s.threads|
    && (forall t {:trigger ThreadOk(s.cap, s.workers, t, s.threads[t])} :: 0 <= t < |s.threads| ==> ThreadOk(s.cap, s.workers, t, s.threads[t]))
    && (forall i :: 0 <= i < |s.waiters| ==> s.waiters[i] < s.workers)
  }

  // ---- two threads: what a step does to the state ---------------------------------------------------

  /** What a step of another thread may do to a thread. */
  predicate Touched(th: Thread, th': Thread)
  {
    || th' == th
    || th' == th.(wakeups := th.wakeups + 1)
    || (th.pc.Asleep? && th' == th.(pc := Parking(th.pc.seen)))
    || (exists j :: 0 < j <= |th.ring| && th' == th.(ring := th.ring[j..]))
  }

  lemma TouchedOk(cap: nat, workers: nat, t: nat, th: Thread, th': Thread)
    requires ThreadOk(cap, workers, t, th) && Touched(th, th')
    ensures ThreadOk(cap, workers, t, th')
  {}

  /** The thread that another step of t reaches into, or t itself. */
  function Other(s: Pool, t: nat, s': Pool): nat
    requires t < |s.threads|
  {
    match s.threads[t].pc
    case Bumping(w, _, _) => w
    case Unparking(w, _, _) => w
    case Grabbing(_, order, _) => if order != [] then order[0] else t
    case _ => t
  }

  /** What a step of t leaves alone. */
  predicate Framed(s: Pool, t: nat, s': Pool)
    requires t < |s.threads|
  {
    var v := Other(s, t, s');
    && s'.cap == s.cap && s'.workers == s.workers && |s'.threads| == |s.threads| && v < |s.threads|
    && (forall u :: 0 <= u < |s.threads| && u != t && u != v ==> s'.threads[u] == s.threads[u])
    && (v != t ==> Touched(s.threads[v], s'.threads[v]))
  }

  /** Steps that change one thread only. */
  lemma FrameOne(s: Pool, t: nat, s': Pool)
    requires t < |s.threads| && (StartSubmit(s, t, s') || SubmitStep(s, t, s') || PickStep(s, t, s') || ParkStep(s, t, s'))
    ensures Framed(s, t, s')
  {}

  lemma FrameWake(s: Pool, t: nat, s': Pool)
    requires t < |s.threads| && WakeStep(s, t, s')
    ensures Framed(s, t, s')
  {}

  lemma FrameSteal(s: Pool, t: nat, s': Pool)
    requires t < |s.threads| && StealStep(s, t, s') && ThreadOk(s.cap, s.workers, t, s.threads[t])
    ensures Framed(s, t, s')
  {}

  lemma StepFrame(s: Pool, t: nat, s': Pool)
    requires Shaped(s) && ThreadStep(s, t, s')
    ensures Framed(s, t, s')
  {
    assert ThreadOk(s.cap, s.workers, t, s.threads[t]);
    if WakeStep(s, t, s') { FrameWake(s, t, s'); }
    else if StealStep(s, t, s') { FrameSteal(s, t, s'); }
    else { FrameOne(s, t, s'); }
  }

  lemma OwnSubmit(s: Pool, t: nat, s': Pool)
    requires Shaped(s) && t < |s.threads| && (StartSubmit(s, t, s') || SubmitStep(s, t, s'))
    ensures |s'.threads| == |s.threads| && ThreadOk(s.cap, s.workers, t, s'.threads[t])
  {
    assert ThreadOk(s.cap, s.workers, t, s.threads[t]);
  }

  lemma OwnWake(s: Pool, t: nat, s': Pool)
    requires Shaped(s) && t < |s.threads| && (WakeStep(s, t, s'))
    ensures |s'.threads| == |s.threads| && ThreadOk(s.cap, s.workers, t, s'.threads[t])
  {
    assert ThreadOk(s.cap, s.workers, t, s.threads[t]);
  }

  lemma OwnGlobal(s: Pool, t: nat, s': Pool)
    requires t < |s.threads| && PickStep(s, t, s') && ThreadOk(s.cap, s.workers, t, s.threads[t])
    requires s.threads[t].pc.PickFirst? || s.threads[t].pc.PickGlobal?
    ensures |s'.threads| == |s.threads| && ThreadOk(s.cap, s.workers, t, s'.threads[t])
  {}

  lemma OwnPick(s: Pool, t: nat, s': Pool)
    requires t < |s.threads| && PickStep(s, t, s') && ThreadOk(s.cap, s.workers, t, s.threads[t])
    requires !s.threads[t].pc.PickFirst? && !s.threads[t].pc.PickGlobal?
    ensures |s'.threads| == |s.threads| && ThreadOk(s.cap, s.workers, t, s'.threads[t])
  {}

  lemma OwnStash(s: Pool, t: nat, s': Pool)
    requires t < |s.threads| && StealStep(s, t, s') && ThreadOk(s.cap, s.workers, t, s.threads[t]) && s.threads[t].pc.Stashing?
    ensures |s'.threads| == |s.threads| && ThreadOk(s.cap, s.workers, t, s'.threads[t])
  {}

  lemma OwnSteal(s: Pool, t: nat, s': Pool)
    requires t < |s.threads| && StealStep(s, t, s') && ThreadOk(s.cap, s.workers, t, s.threads[t]) && !s.threads[t].pc.Stashing?
    requires s.cap >= 2
    ensures |s'.threads| == |s.threads| && ThreadOk(s.cap, s.workers, t, s'.threads[t])
  {}

  lemma OwnPark(s: Pool, t: nat, s': Pool)
    requires Shaped(s) && t < |s.threads| && (ParkStep(s, t, s'))
    ensures |s'.threads| == |s.threads| && ThreadOk(s.cap, s.workers, t, s'.threads[t])
  {
    assert ThreadOk(s.cap, s.workers, t, s.threads[t]);
  }

  lemma ShapeKeeps(s: Pool, t: nat, s': Pool)
    requires Shaped(s) && ThreadStep(s, t, s')
    ensures Shaped(s')
  {
    StepFrame(s, t, s');
    assert ThreadOk(s.cap, s.workers, t, s.threads[t]);
    if StartSubmit(s, t, s') || SubmitStep(s, t, s') { OwnSubmit(s, t, s'); }
    else if WakeStep(s, t, s') { OwnWake(s, t, s'); }
    else if PickStep(s, t, s') {
      if s.threads[t].pc.PickFirst? || s.threads[t].pc.PickGlobal? { OwnGlobal(s, t, s'); } else { OwnPick(s, t, s'); }
    }
    else if StealStep(s, t, s') {
      if s.threads[t].pc.Stashing? { OwnStash(s, t, s'); } else { OwnSteal(s, t, s'); }
    }
    else { OwnPark(s, t, s'); }
    forall u | 0 <= u < |s'.threads| ensures ThreadOk(s'.cap, s'.workers, u, s'.threads[u]) {
      assert ThreadOk(s.cap, s.workers, u, s.threads[u]);
      if u != t && u == Other(s, t, s') { TouchedOk(s.cap, s.workers, u, s.threads[u], s'.threads[u]); }
    }
    WaitersKeep(s, t, s');
  }

  lemma WaitersKeep(s: Pool, t: nat, s': Pool)
    requires Shaped(s) && ThreadStep(s, t, s')
    ensures forall i :: 0 <= i < |s'.waiters| ==> s'.waiters[i] < s'.workers
  {
    assert ThreadOk(s.cap, s.workers, t, s.threads[t]);
  }

  // ---- the spinning count ---------------------------------------------------------------------------

  function SpinOf(th: Thread): int
  {
    if Spins(th.pc) then 1 else 0
  }

  function SpinList(ts: seq<Thread>): seq<int>
  {
    seq(|ts|, i requires 0 <= i < |ts| => SpinOf(ts[i]))
  }

  predicate SpinsCounted(s: Pool)
  {
    s.spinning == Sum(SpinList(s.threads))
  }

  lemma SpinDelta(s: Pool, t: nat, s': Pool)
    requires Shaped(s) && ThreadStep(s, t, s')
    ensures |s'.threads| == |s.threads| && s'.spinning - s.spinning == SpinOf(s'.threads[t]) - SpinOf(s.threads[t])
  {
    if StealStep(s, t, s') || ParkStep(s, t, s') { SpinDeltaPark(s, t, s'); }
    else if PickStep(s, t, s') { NoSpinPick(s, t, s'); }
    else { NoSpinDelta(s, t, s'); }
  }

  lemma SpinDeltaPark(s: Pool, t: nat, s': Pool)
    requires Shaped(s) && t < |s.threads| && (StealStep(s, t, s') || ParkStep(s, t, s'))
    ensures |s'.threads| == |s.threads| && s'.spinning - s.spinning == SpinOf(s'.threads[t]) - SpinOf(s.threads[t])
  {
    assert ThreadOk(s.cap, s.workers, t, s.threads[t]);
  }

  lemma NoSpinPick(s: Pool, t: nat, s': Pool)
    requires t < |s.threads| && PickStep(s, t, s')
    ensures |s'.threads| == |s.threads| && s'.spinning == s.spinning && !Spins(s'.threads[t].pc) && !Spins(s.threads[t].pc)
  {}

  lemma NoSpinDelta(s: Pool, t: nat, s': Pool)
    requires t < |s.threads| && (StartSubmit(s, t, s') || SubmitStep(s, t, s') || WakeStep(s, t, s'))
    ensures |s'.threads| == |s.threads| && s'.spinning == s.spinning && !Spins(s'.threads[t].pc) && !Spins(s.threads[t].pc)
  {}

  lemma SpinsKeep(s: Pool, t: nat, s': Pool)
    requires Shaped(s) && ThreadStep(s, t, s') && SpinsCounted(s)
    ensures SpinsCounted(s')
  {
    StepFrame(s, t, s');
    SpinDelta(s, t, s');
    assert SpinList(s'.threads) == SpinList(s.threads)[t := SpinOf(s'.threads[t])];
    SumUpdate(SpinList(s.threads), t, SpinOf(s'.threads[t]));
  }

  // ---- conservation of tasks ------------------------------------------------------------------------------

  function Is(x: Task, a: Task): int
  {
    if x == a then 1 else 0
  }

  /** How often a occurs. */
  function Occurs(xs: seq<Task>, a: Task): int
  {
    if xs == [] then 0 else Is(xs[0], a) + Occurs(xs[1..], a)
  }

  lemma {:induction false} OccursConcat(x: seq<Task>, y: seq<Task>, a: Task)
    ensures Occurs(x + y, a) == Occurs(x, a) + Occurs(y, a)
  {
    if x == [] {
      assert x + y == y;
    } else {
      assert (x + y)[1..] == x[1..] + y;
      OccursConcat(x[1..], y, a);
    }
  }

  lemma OccursOne(x: Task, a: Task)
    ensures Occurs([x], a) == Is(x, a)
  {
    assert [x][1..] == [];
  }

  lemma OccursSplit(xs: seq<Task>, j: nat, a: Task)
    requires j <= |xs|
    ensures Occurs(xs, a) == Occurs(xs[..j], a) + Occurs(xs[j..], a)
  {
    OccursConcat(xs[..j], xs[j..], a);
    assert xs == xs[..j] + xs[j..];
  }

  /** Tasks in the hands of a thread. */
  function Held(pc: Pc, a: Task): int
  {
    match pc
    case Outside(x) => Is(x, a)
    case Yielding(x) => Is(x, a)
    case Hinted(x) => Is(x, a)
    case Pushing(x) => Is(x, a)
    case Offloading(x) => Is(x, a)
    case Spilling(xs) => Occurs(xs, a)
    case Notify(k) => HeldAfter(k, a)
    case Waking(_, k) => HeldAfter(k, a)
    case Bumping(_, _, k) => HeldAfter(k, a)
    case Unparking(_, _, k) => HeldAfter(k, a)
    case Got(x) => Is(x, a)
    case Stashing(rest, x, _) => Occurs(rest, a) + Is(x, a)
    case SpinDown(x) => Is(x, a)
    case _ => 0
  }

  function HeldAfter(k: After, a: Task): int
  {
    if k.ToTask? then Is(k.x, a) else 0
  }

  function Own(th: Thread, a: Task): int
  {
    Occurs(th.ring, a) + (if th.lifo.Some? then Is(th.lifo.value, a) else 0) + Held(th.pc, a)
  }

  function OwnList(ts: seq<Thread>, a: Task): seq<int>
  {
    seq(|ts|, i requires 0 <= i < |ts| => Own(ts[i], a))
  }

  /** Every submitted task is in exactly one place, or has been picked. */
  predicate Conserved(s: Pool, a: Task)
  {
    s.submitted[a] == s.picked[a] + Occurs(s.global, a) + Sum(OwnList(s.threads, a))
  }

  function OwnTwo(s: Pool, t: nat, v: nat, a: Task): int
    requires t < |s.threads| && v < |s.threads|
  {
    Own(s.threads[t], a) + if v == t then 0 else Own(s.threads[v], a)
  }

  /** The books of one step: thread t and perhaps another one. */
  predicate Settles(s: Pool, t: nat, s': Pool, a: Task)
    requires t < |s.threads| == |s'.threads| && Other(s, t, s') < |s.threads|
  {
    var v := Other(s, t, s');
    s'.picked[a] + Occurs(s'.global, a) + OwnTwo(s', t, v, a) + s.submitted[a]
    == s.picked[a] + Occurs(s.global, a) + OwnTwo(s, t, v, a) + s'.submitted[a]
  }

  lemma Rebalance(s: Pool, t: nat, s': Pool, a: Task)
    requires t < |s.threads| == |s'.threads| && Other(s, t, s') < |s.threads| && Settles(s, t, s', a) && Conserved(s, a)
    requires forall u :: 0 <= u < |s.threads| && u != t && u != Other(s, t, s') ==> s'.threads[u] == s.threads[u]
    ensures Conserved(s', a)
  {
    var v, x, y := Other(s, t, s'), OwnList(s.threads, a), OwnList(s'.threads, a);
    SumUpdate(x, t, y[t]);
    if v == t {
      assert y == x[t := y[t]];
    } else {
      SumUpdate(x[t := y[t]], v, y[v]);
      assert y == x[t := y[t]][v := y[v]];
    }
  }

  lemma StartSettles(s: Pool, t: nat, s': Pool, a: Task)
    requires t < |s.threads| && StartSubmit(s, t, s')
    ensures |s'.threads| == |s.threads| && Other(s, t, s') == t && Settles(s, t, s', a)
  {
    var x: Task, pc: Pc :| Accepts(s.threads[t].pc, pc, x) && s' == Go(s.(submitted := s.submitted + multiset{x}), t, pc);
    TakesIn(s, t, s', x, a, pc);
  }

  lemma TakesIn(s: Pool, t: nat, s': Pool, x: Task, a: Task, pc: Pc)
    requires t < |s.threads| && (s.threads[t].pc.Idle? || s.threads[t].pc.Running?) && Held(pc, a) == Is(x, a)
    requires s' == Go(s.(submitted := s.submitted + multiset{x}), t, pc)
    ensures |s'.threads| == |s.threads| && Other(s, t, s') == t && Settles(s, t, s', a)
  {
    assert (s.submitted + multiset{x})[a] == s.submitted[a] + Is(x, a);
    assert Own(s'.threads[t], a) == Own(s.threads[t], a) + Is(x, a);
  }

  lemma OffloadSettles(s: Pool, t: nat, s': Pool, a: Task)
    requires t < |s.threads| && SubmitStep(s, t, s') && s.threads[t].pc.Offloading?
    ensures |s'.threads| == |s.threads| && Other(s, t, s') == t && Settles(s, t, s', a)
  {
    var th := s.threads[t];
    var j :| 0 <= j <= |th.ring| && j <= s.cap / 2 && s' == Keep(s, t, Spilled(th, j, th.pc.x));
    SpilledOwn(th, j, a);
  }

  lemma SpilledOwn(th: Thread, j: nat, a: Task)
    requires th.pc.Offloading? && j <= |th.ring|
    ensures Own(Spilled(th, j, th.pc.x), a) == Own(th, a)
  {
    var r, x := th.ring, th.pc.x;
    OccursSplit(r, j, a);
    OccursOne(x, a);
    OccursConcat(r[..j], [x], a);
  }

  /** The front of the ring, at most half of its capacity, and the new task are on their way to the global queue. */
  lemma OffloadMoves(s: Pool, t: nat, s': Pool)
    requires t < |s.threads| && SubmitStep(s, t, s') && s.threads[t].pc.Offloading?
    ensures |s'.threads| == |s.threads| && s'.threads[t].pc.Spilling?
    ensures var th, th', xs := s.threads[t], s'.threads[t], s'.threads[t].pc.xs;
            && xs != [] && xs[|xs| - 1] == th.pc.x
            && th.ring == xs[..|xs| - 1] + th'.ring && 2 * (|xs| - 1) <= s.cap
  {
    var th := s.threads[t];
    var j :| 0 <= j <= |th.ring| && j <= s.cap / 2 && s' == Keep(s, t, Spilled(th, j, th.pc.x));
    assert (th.ring[..j] + [th.pc.x])[..j] == th.ring[..j];
  }

  lemma SubmitSettles(s: Pool, t: nat, s': Pool, a: Task)
    requires t < |s.threads| && SubmitStep(s, t, s') && !s.threads[t].pc.Offloading?
    ensures |s'.threads| == |s.threads| && Other(s, t, s') == t && Settles(s, t, s', a)
  {
    var th := s.threads[t];
    if th.pc.Spilling? {
      OccursConcat(s.global, th.pc.xs, a);
    } else {
      OccursOne(th.pc.x, a);
      if th.pc.Pushing? { OccursConcat(th.ring, [th.pc.x], a); } else { OccursConcat(s.global, [th.pc.x], a); }
    }
  }

  lemma WakeSettles(s: Pool, t: nat, s': Pool, a: Task)
    requires t < |s.threads| && WakeStep(s, t, s') && !s.threads[t].pc.Bumping? && !s.threads[t].pc.Unparking?
    ensures |s'.threads| == |s.threads| && Other(s, t, s') < |s.threads| && Settles(s, t, s', a)
  {}

  lemma BumpSettles(s: Pool, t: nat, s': Pool, a: Task)
    requires t < |s.threads| && WakeStep(s, t, s') && (s.threads[t].pc.Bumping? || s.threads[t].pc.Unparking?)
    ensures |s'.threads| == |s.threads| && Other(s, t, s') < |s.threads| && Settles(s, t, s', a)
  {
    var w := s.threads[t].pc.w;
    assert Own(s'.threads[t], a) == Own(s.threads[t], a);
    assert Own(s'.threads[w], a) == Own(s.threads[w], a);
  }

  lemma PickSettles(s: Pool, t: nat, s': Pool, a: Task)
    requires t < |s.threads| && PickStep(s, t, s')
    ensures |s'.threads| == |s.threads| && Other(s, t, s') == t && Settles(s, t, s', a)
  {}

  lemma ParkSettles(s: Pool, t: nat, s': Pool, a: Task)
    requires t < |s.threads| && ParkStep(s, t, s')
    ensures |s'.threads| == |s.threads| && Other(s, t, s') == t && Settles(s, t, s', a)
  {}

  lemma StashSettles(s: Pool, t: nat, s': Pool, a: Task)
    requires t < |s.threads| && StealStep(s, t, s') && s.threads[t].pc.Stashing? && s'.threads[t].pc != Aborted
    ensures |s'.threads| == |s.threads| && Other(s, t, s') == t && Settles(s, t, s', a)
  {
    var th := s.threads[t];
    if th.pc.rest != [] {
      OccursOne(th.pc.rest[0], a);
      OccursConcat(th.ring, [th.pc.rest[0]], a);
    }
  }

  lemma StolenSettles(s: Pool, t: nat, s': Pool, a: Task, j: nat)
    requires t < |s.threads| && s.threads[t].pc.Grabbing? && s.threads[t].pc.order != []
    requires var v := s.threads[t].pc.order[0];
             v < |s.threads| && v != t && 0 < j <= |s.threads[v].ring| && s' == Stolen(s, t, v, j, s.threads[t].pc.park)
    ensures |s'.threads| == |s.threads| && Other(s, t, s') < |s.threads| && Settles(s, t, s', a)
  {
    GrabSettles(s.threads[s.threads[t].pc.order[0]].ring, j, a);
  }

  lemma FrontSplits(r: seq<Task>, j: nat)
    requires 0 < j <= |r|
    ensures r == r[..j][..j - 1] + [r[..j][j - 1]] + r[j..]
  {}

  /** What a thief has in hand is the front of the victim's ring, at most as much as it asked for. */
  lemma StolenIsFront(s: Pool, t: nat, v: nat, j: nat, park: Option<nat>)
    requires t < |s.threads| && v < |s.threads| && v != t && 0 < j <= |s.threads[v].ring|
    ensures var s' := Stolen(s, t, v, j, park);
            && |s'.threads| == |s.threads| && s'.threads[t].pc.Stashing? && |s'.threads[t].pc.rest| == j - 1
            && s.threads[v].ring == s'.threads[t].pc.rest + [s'.threads[t].pc.x] + s'.threads[v].ring
  {
    FrontSplits(s.threads[v].ring, j);
  }

  lemma StealSettles(s: Pool, t: nat, s': Pool, a: Task)
    requires Shaped(s) && t < |s.threads| && StealStep(s, t, s')
    ensures |s'.threads| == |s.threads| && Other(s, t, s') < |s.threads| && Settles(s, t, s', a)
  {
    var th := s.threads[t];
    assert ThreadOk(s.cap, s.workers, t, th);
    if th.pc.Grabbing? && s' != Go(s, t, Stealing(th.pc.order[1..], th.pc.park)) {
      var v := th.pc.order[0];
      var j :| 0 < j <= th.pc.n && j <= |s.threads[v].ring| && s' == Stolen(s, t, v, j, th.pc.park);
      StolenSettles(s, t, s', a, j);
    } else if th.pc.Stashing? {
      StashSettles(s, t, s', a);
    }
  }

  lemma GrabSettles(r: seq<Task>, j: nat, a: Task)
    requires 0 < j <= |r|
    ensures Occurs(r, a) == Occurs(r[..j][..j - 1], a) + Is(r[..j][j - 1], a) + Occurs(r[j..], a)
  {
    OccursSplit(r, j, a);
    OccursSplit(r[..j], j - 1, a);
    assert r[..j][j - 1..] == [r[..j][j - 1]];
    OccursOne(r[..j][j - 1], a);
  }

  lemma TasksKeep(s: Pool, t: nat, s': Pool, a: Task)
    requires Shaped(s) && ThreadStep(s, t, s') && Conserved(s, a)
    ensures Conserved(s', a)
  {
    StepFrame(s, t, s');
    if StartSubmit(s, t, s') { StartSettles(s, t, s', a); }
    else if SubmitStep(s, t, s') {
      if s.threads[t].pc.Offloading? { OffloadSettles(s, t, s', a); } else { SubmitSettles(s, t, s', a); }
    }
    else if WakeStep(s, t, s') {
      if s.threads[t].pc.Bumping? || s.threads[t].pc.Unparking? { BumpSettles(s, t, s', a); } else { WakeSettles(s, t, s', a); }
    }
    else if StealStep(s, t, s') { StealSettles(s, t, s', a); }
    else if PickStep(s, t, s') { PickSettles(s, t, s', a); }
    else { ParkSettles(s, t, s', a); }
    Rebalance(s, t, s', a);
  }
}

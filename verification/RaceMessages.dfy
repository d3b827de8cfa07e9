/**
What the memory orders of a program mean for the detector, with the orders written out: a release
store and an acquire load that reads it pass everything on; a thread that makes no acquire learns
nothing and one that makes no release tells nothing.
*/
module MessagePassing {
  import opened VectorClocks
  import opened RaceDetector
  import opened HappensBeforeOrder
  import opened RaceTheorems

  /** A store or the commit of a read-modify-write that publishes. */
  predicate Sends(e: Event, x: Loc)
  {
    || (e.AtomicStore? && e.x == x && e.mo in {Release, AcqRel, SeqCst})
    || (e.AtomicRmwCommit? && e.x == x && e.mo in {Release, AcqRel, SeqCst})
  }

  /** A load or the load of a read-modify-write that takes in. */
  predicate Receives(e: Event, x: Loc)
  {
    || (e.AtomicLoad? && e.x == x && e.mo in {Acquire, SeqCst})
    || (e.AtomicRmwLoad? && e.x == x && e.mo in {Acquire, AcqRel, SeqCst})
  }

  predicate Overwrites(e: Event, x: Loc)
  {
    (e.AtomicStore? || e.AtomicInit?) && e.x == x
  }

  /** The load at l reads the store at k, or a read-modify-write in its release sequence. */
  predicate Delivered(tr: seq<Event>, x: Loc, k: nat, l: nat)
  {
    k < l < |tr| && Sends(tr[k], x) && Receives(tr[l], x) && forall m :: k < m < l ==> !Overwrites(tr[m], x)
  }

  /** Whatever happens before the store happens before whatever follows the load in its thread. */
  lemma MessageArrives(tr: seq<Event>, x: Loc, i: nat, k: nat, l: nat, j: nat)
    requires Delivered(tr, x, k, l) && HB(tr, i, k) && l <= j < |tr| && tr[j].t == tr[l].t
    ensures HB(tr, i, j)
  {
    assert Current(tr, x, k, l);
    assert Carries(tr, k, k, l, l);
    assert SynchronizesWith(tr, k, l) && Edge(tr, k, l);
    assert HB(tr, i, l);
    if l < j { assert Edge(tr, l, j); }
  }

  /** Accesses on the two sides of a message are never reported as a race with each other. */
  lemma MessageProtects(tr: seq<Event>, x: Loc, i: nat, k: nat, l: nat, j: nat)
    requires Delivered(tr, x, k, l) && i < k && tr[i].t == tr[k].t && l < j < |tr| && tr[j].t == tr[l].t && tr[j].Access?
    ensures !Races(tr, i, j)
  {
    assert Edge(tr, i, k) && HB(tr, i, i) && HB(tr, i, k);
    MessageArrives(tr, x, i, k, l, j);
  }

  // ---- without a release or an acquire ------------------------------------------------------

  /** Takes nothing in: no acquire order, no start, wake-up or reuse of memory. */
  predicate Deaf(e: Event)
  {
    match e
    case Spawn(_, _) => false
    case Wake(_, _) => false
    case Malloc(_, _) => false
    case AtomicLoad(_, _, mo) => mo in {Relaxed, Consume, Release}
    case AtomicRmwLoad(_, _, mo) => mo in {Relaxed, Consume, Release}
    case AtomicThreadFence(_, mo) => mo in {Relaxed, Consume, Release, SeqCst}
    case _ => true
  }

  /** Publishes nothing: no release order, no free. */
  predicate Mute(e: Event)
  {
    match e
    case Free(_, _) => false
    case AtomicStore(_, _, mo) => mo in {Relaxed, Consume, Acquire}
    case AtomicRmwCommit(_, _, mo) => mo in {Relaxed, Consume, Acquire}
    case AtomicThreadFence(_, mo) => mo in {Relaxed, Consume, Acquire, SeqCst}
    case _ => true
  }

  /** A thread whose later events are deaf knows nothing of an event of another thread. */
  lemma {:induction false} DeafLearnsNothing(tr: seq<Event>, i: nat, j: nat)
    requires i < |tr| && j < |tr| && tr[i].t != tr[j].t && forall m :: i < m <= j && tr[m].t == tr[j].t ==> Deaf(tr[m])
    ensures !HB(tr, i, j)
    decreases j
  {
    if HB(tr, i, j) {
      var k: nat :| Edge(tr, k, j) && HB(tr, i, k);
      Forward(tr, i, k);
      assert Deaf(tr[j]) && tr[k].t == tr[j].t;
      DeafLearnsNothing(tr, i, k);
    }
  }

  /** An event whose thread is mute from then on, and spawns nobody, is unknown to all others. */
  lemma {:induction false} MuteTellsNothing(tr: seq<Event>, i: nat, j: nat)
    requires i < |tr| && j < |tr| && tr[i].t != tr[j].t
    requires forall m :: i <= m < j ==> (tr[m].t == tr[i].t ==> Mute(tr[m]))
    requires forall m :: i < m <= j ==> !(tr[m].Spawn? && tr[m].parent == tr[i].t)
    ensures !HB(tr, i, j)
    decreases j
  {
    if HB(tr, i, j) {
      var k: nat :| Edge(tr, k, j) && HB(tr, i, k);
      Forward(tr, i, k);
      if tr[k].t != tr[i].t { MuteTellsNothing(tr, i, k); }
    }
  }

  /** Such accesses are reported, if they conflict. */
  lemma UnsentIsReported(tr: seq<Event>, i: nat, j: nat)
    requires j < |tr| && After(tr, j).Ok? && tr[j].Access? && !After(tr, j + 1).Panic?
    requires Since(tr, tr[j].x, i, j) && tr[i].t != tr[j].t && (tr[i].kind in {Init, Write, Destroy} || tr[j].kind in {Init, Write, Destroy})
    requires
      || (forall m :: i < m <= j && tr[m].t == tr[j].t ==> Deaf(tr[m]))
      || (&& (forall m :: i <= m < j && tr[m].t == tr[i].t ==> Mute(tr[m]))
          && (forall m :: i < m <= j ==> !(tr[m].Spawn? && tr[m].parent == tr[i].t)))
    ensures After(tr, j + 1).Race?
  {
    if forall m :: i < m <= j && tr[m].t == tr[j].t ==> Deaf(tr[m]) { DeafLearnsNothing(tr, i, j); } else { MuteTellsNothing(tr, i, j); }
    ReportIffRace(tr, j);
    assert Races(tr, i, j);
  }

  // ---- which orders are admitted --------------------------------------------------------------

  /** On a live location of a known thread, an operation is refused exactly for the orders it does not have. */
  lemma AdmittedOrders(d: Detector, t: Tid, x: Loc, mo: MemoryOrder)
    requires 1 <= t <= |d.threads| <= MAX_THREADS && x in d.atomics && !d.atomics[x].dtor
    ensures Apply(d, AtomicLoad(t, x, mo)).Panic? <==> mo in {Consume, Release, AcqRel}
    ensures Apply(d, AtomicStore(t, x, mo)).Panic? <==> mo in {Consume, Acquire}
    ensures Apply(d, AtomicThreadFence(t, mo)).Panic? <==> mo in {Relaxed, Consume, SeqCst}
    ensures Apply(d, AtomicRmwLoad(t, x, mo)).Ok? && Apply(d, AtomicRmwCommit(t, x, mo)).Ok?
    ensures !Apply(d, AtomicLoad(t, x, mo)).Race? && !Apply(d, AtomicStore(t, x, mo)).Race? && !Apply(d, AtomicThreadFence(t, mo)).Race?
  {}

  predicate Usable(d: Detector, x: Loc)
  {
    x in d.atomics && !d.atomics[x].dtor
  }

  /** Operations on an atomic that was never initialised, or was destroyed, are refused; so are those of unknown threads. */
  lemma DeadIsRefused(d: Detector, e: Event)
    requires e.AtomicLoad? || e.AtomicStore? || e.AtomicRmwLoad? || e.AtomicRmwCommit? || e.AtomicDebugLoad? || e.AtomicDestroy?
    requires !Usable(d, e.x) || !(1 <= e.t <= |d.threads|)
    ensures Apply(d, e).Panic?
  {}

  /** A variable is initialised only when it is new or destroyed, and accessed otherwise only when it was initialised. */
  lemma VariableRefusals(d: Detector, t: Tid, x: Loc, kind: AccessType)
    requires |d.threads| <= MAX_THREADS
    ensures Apply(d, Access(t, x, kind)).Panic? <==>
              || !(1 <= t <= |d.threads|)
              || (if kind.Init? then x in d.vars && !d.vars[x].dtor else x !in d.vars)
  {}

  /** After an operation on x the atomic is usable, unless it was destroyed; other atomics are as before. */
  lemma UsableAfter(d: Detector, e: Event, y: Loc)
    requires Apply(d, e).Ok?
    ensures Usable(Apply(d, e).d, y) <==>
              if e.AtomicInit? && e.x == y then true else if e.AtomicDestroy? && e.x == y then false else Usable(d, y)
  {}
}

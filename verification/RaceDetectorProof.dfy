/**
The race detector is exact: its clocks hold precisely the happens-before relation
of the run, and it reports an access exactly when that access races with an earlier
one.  Happens-before is defined on the events alone, without clocks.
*/
module HappensBeforeOrder {
  import opened VectorClocks
  import opened RaceDetector

  // ---- the relation ---------------------------------------------------------------------

  predicate IsRelease(e: Event)
  {
    match e
    case AtomicStore(_, _, mo) => mo.Release? || mo.AcqRel? || mo.SeqCst?
    case AtomicRmwCommit(_, _, mo) => mo.Release? || mo.AcqRel? || mo.SeqCst?
    case AtomicThreadFence(_, mo) => mo.Release? || mo.AcqRel?
    case _ => false
  }

  predicate IsAcquire(e: Event)
  {
    match e
    case AtomicLoad(_, _, mo) => mo.Acquire? || mo.AcqRel? || mo.SeqCst?
    case AtomicRmwLoad(_, _, mo) => mo.Acquire? || mo.AcqRel? || mo.SeqCst?
    case AtomicThreadFence(_, mo) => mo.Acquire? || mo.AcqRel?
    case _ => false
  }

  predicate Writes(e: Event, x: Loc)
  {
    (e.AtomicStore? || e.AtomicRmwCommit?) && e.x == x
  }

  predicate Reads(e: Event)
  {
    e.AtomicLoad? || e.AtomicRmwLoad?
  }

  /** Ends every release sequence on x. */
  predicate Breaks(e: Event, x: Loc)
  {
    (e.AtomicStore? || e.AtomicInit?) && e.x == x
  }

  /** The write at k heads or continues the release sequence that is current on x before event n. */
  predicate Current(tr: seq<Event>, x: Loc, k: nat, n: nat)
    requires n <= |tr|
  {
    k < n && Writes(tr[k], x) && forall m :: k < m < n ==> !Breaks(tr[m], x)
  }

  /**
  The write at k is at or after the release operation i of the same thread, and is
  read at l, at or before the acquire operation j of the same thread.
  */
  predicate Carries(tr: seq<Event>, i: nat, k: nat, l: nat, j: nat)
    requires j < |tr|
  {
    && i <= k < l <= j && tr[k].t == tr[i].t && tr[l].t == tr[j].t
    && Reads(tr[l]) && Current(tr, tr[l].x, k, l)
  }

  ghost predicate SynchronizesWith(tr: seq<Event>, i: nat, j: nat)
    requires j < |tr|
  {
    i < j && IsRelease(tr[i]) && IsAcquire(tr[j]) && exists k: nat, l: nat :: Carries(tr, i, k, l, j)
  }

  predicate LastFree(tr: seq<Event>, x: Loc, j: nat, n: nat)
    requires n <= |tr|
  {
    j < n && tr[j].Free? && tr[j].x == x && forall m :: j < m < n ==> !(tr[m].Free? && tr[m].x == x)
  }

  /** Program order, spawn, release and acquire, wake, and memory that is reused. */
  ghost predicate Edge(tr: seq<Event>, i: nat, j: nat)
    requires j < |tr|
  {
    i < j &&
    (|| tr[i].t == tr[j].t
     || (tr[j].Spawn? && tr[i].t == tr[j].parent)
     || (tr[j].Wake? && tr[i].t == tr[j].waker && IsRelease(tr[i]))
     || (tr[j].Malloc? && LastFree(tr, tr[j].x, i, j))
     || SynchronizesWith(tr, i, j))
  }

  /** The reflexive transitive closure. */
  ghost predicate HB(tr: seq<Event>, i: nat, j: nat)
    requires j < |tr|
  {
    i == j || exists k: nat :: Edge(tr, k, j) && HB(tr, i, k)
  }

  // ---- what happens before a point of the run -----------------------------------------------

  /** i happens before, or is, an event of u among the first n. */
  ghost predicate Reached(tr: seq<Event>, n: nat, u: Tid, i: nat)
    requires n <= |tr|
  {
    exists j :: 0 <= j < n && tr[j].t == u && HB(tr, i, j)
  }

  /** The same for a release operation of u. */
  ghost predicate Released(tr: seq<Event>, n: nat, u: Tid, i: nat)
    requires n <= |tr|
  {
    exists j :: 0 <= j < n && tr[j].t == u && IsRelease(tr[j]) && HB(tr, i, j)
  }

  ghost predicate Stored(tr: seq<Event>, n: nat, x: Loc, i: nat)
    requires n <= |tr|
  {
    exists k: nat :: Current(tr, x, k, n) && Released(tr, k + 1, tr[k].t, i)
  }

  ghost predicate Acquired(tr: seq<Event>, n: nat, u: Tid, i: nat)
    requires n <= |tr|
  {
    exists l :: 0 <= l < n && tr[l].t == u && Reads(tr[l]) && Stored(tr, l, tr[l].x, i)
  }

  ghost predicate Freed(tr: seq<Event>, n: nat, x: Loc, i: nat)
    requires n <= |tr|
  {
    exists j: nat :: LastFree(tr, x, j, n) && HB(tr, i, j)
  }

  // ---- how they grow with one event -----------------------------------------------------------

  lemma {:induction false} Forward(tr: seq<Event>, i: nat, j: nat)
    requires j < |tr| && HB(tr, i, j)
    ensures i <= j
  {
    if i != j {
      var k: nat :| Edge(tr, k, j) && HB(tr, i, k);
      Forward(tr, i, k);
    }
  }

  lemma {:induction false} Transitive(tr: seq<Event>, i: nat, j: nat, k: nat)
    requires k < |tr| && j < |tr| && HB(tr, i, j) && HB(tr, j, k)
    ensures HB(tr, i, k)
    decreases k
  {
    if j != k {
      var m: nat :| Edge(tr, m, k) && HB(tr, j, m);
      Transitive(tr, i, j, m);
    }
  }

  lemma SyncIsAcquired(tr: seq<Event>, n: nat, i: nat)
    requires n < |tr| && IsAcquire(tr[n])
    ensures (exists k: nat :: SynchronizesWith(tr, k, n) && HB(tr, i, k)) <==> Acquired(tr, n + 1, tr[n].t, i)
  {
    if k: nat :| SynchronizesWith(tr, k, n) && HB(tr, i, k) {
      var w: nat, l: nat :| Carries(tr, k, w, l, n);
      assert Released(tr, w + 1, tr[w].t, i);
      assert Stored(tr, l, tr[l].x, i);
    }
    if Acquired(tr, n + 1, tr[n].t, i) {
      var l: nat :| 0 <= l < n + 1 && tr[l].t == tr[n].t && Reads(tr[l]) && Stored(tr, l, tr[l].x, i);
      var w: nat :| Current(tr, tr[l].x, w, l) && Released(tr, w + 1, tr[w].t, i);
      var k: nat :| 0 <= k < w + 1 && tr[k].t == tr[w].t && IsRelease(tr[k]) && HB(tr, i, k);
      assert Carries(tr, k, w, l, n);
      assert SynchronizesWith(tr, k, n);
    }
  }

  /** What happens before the event n, in terms of what was reached before it. */
  ghost predicate Arrives(tr: seq<Event>, n: nat, i: nat)
    requires n < |tr|
  {
    var e := tr[n];
    || i == n
    || Reached(tr, n, e.t, i)
    || (e.Spawn? && Reached(tr, n, e.parent, i))
    || (e.Wake? && Released(tr, n, e.waker, i))
    || (e.Malloc? && Freed(tr, n, e.x, i))
    || (IsAcquire(e) && Acquired(tr, n + 1, e.t, i))
  }

  lemma Arrival(tr: seq<Event>, n: nat, i: nat)
    requires n < |tr|
    ensures HB(tr, i, n) <==> Arrives(tr, n, i)
  {
    if IsAcquire(tr[n]) { SyncIsAcquired(tr, n, i); }
    if HB(tr, i, n) && i != n {
      var k: nat :| Edge(tr, k, n) && HB(tr, i, k);
      assert Arrives(tr, n, i);
    }
    if Arrives(tr, n, i) { ArrivalBack(tr, n, i); }
  }

  lemma ArrivalBack(tr: seq<Event>, n: nat, i: nat)
    requires n < |tr| && Arrives(tr, n, i)
    ensures HB(tr, i, n)
  {
    var e := tr[n];
    if i == n {
    } else if Reached(tr, n, e.t, i) {
      var j: nat :| 0 <= j < n && tr[j].t == e.t && HB(tr, i, j);
      assert Edge(tr, j, n);
    } else if e.Spawn? && Reached(tr, n, e.parent, i) {
      var j: nat :| 0 <= j < n && tr[j].t == e.parent && HB(tr, i, j);
      assert Edge(tr, j, n);
    } else if e.Wake? && Released(tr, n, e.waker, i) {
      var j: nat :| 0 <= j < n && tr[j].t == e.waker && IsRelease(tr[j]) && HB(tr, i, j);
      assert Edge(tr, j, n);
    } else if e.Malloc? && Freed(tr, n, e.x, i) {
      var j: nat :| LastFree(tr, e.x, j, n) && HB(tr, i, j);
      assert Edge(tr, j, n);
    } else {
      SyncIsAcquired(tr, n, i);
      var k: nat :| SynchronizesWith(tr, k, n) && HB(tr, i, k);
      assert Edge(tr, k, n);
    }
  }

  lemma ReachedNext(tr: seq<Event>, n: nat, u: Tid, i: nat)
    requires n < |tr|
    ensures Reached(tr, n + 1, u, i) <==> if u == tr[n].t then HB(tr, i, n) else Reached(tr, n, u, i)
  {
    if j: nat :| 0 <= j < n && tr[j].t == u && HB(tr, i, j) {
      if u == tr[n].t { assert Edge(tr, j, n); }
    }
  }

  lemma ReleasedNext(tr: seq<Event>, n: nat, u: Tid, i: nat)
    requires n < |tr|
    ensures Released(tr, n + 1, u, i) <==>
            if u == tr[n].t && IsRelease(tr[n]) then HB(tr, i, n) else Released(tr, n, u, i)
  {
    if j: nat :| 0 <= j < n && tr[j].t == u && IsRelease(tr[j]) && HB(tr, i, j) {
      if u == tr[n].t { assert Edge(tr, j, n); }
    }
  }

  lemma StoredNext(tr: seq<Event>, n: nat, x: Loc, i: nat)
    requires n < |tr|
    ensures Stored(tr, n + 1, x, i) <==>
            || (!Breaks(tr[n], x) && Stored(tr, n, x, i))
            || (Writes(tr[n], x) && Released(tr, n + 1, tr[n].t, i))
  {
    if Stored(tr, n + 1, x, i) {
      var k: nat :| Current(tr, x, k, n + 1) && Released(tr, k + 1, tr[k].t, i);
      if k < n { assert Current(tr, x, k, n); }
    }
    if !Breaks(tr[n], x) && Stored(tr, n, x, i) {
      var k: nat :| Current(tr, x, k, n) && Released(tr, k + 1, tr[k].t, i);
      assert Current(tr, x, k, n + 1);
    }
    if Writes(tr[n], x) { assert Current(tr, x, n, n + 1); }
  }

  lemma AcquiredNext(tr: seq<Event>, n: nat, u: Tid, i: nat)
    requires n < |tr|
    ensures Acquired(tr, n + 1, u, i) <==>
            Acquired(tr, n, u, i) || (u == tr[n].t && Reads(tr[n]) && Stored(tr, n, tr[n].x, i))
  {
  }

  lemma FreedNext(tr: seq<Event>, n: nat, x: Loc, i: nat)
    requires n < |tr|
    ensures Freed(tr, n + 1, x, i) <==> if tr[n].Free? && tr[n].x == x then HB(tr, i, n) else Freed(tr, n, x, i)
  {
    if tr[n].Free? && tr[n].x == x {
      assert LastFree(tr, x, n, n + 1);
    } else {
      if j: nat :| LastFree(tr, x, j, n) && HB(tr, i, j) { assert LastFree(tr, x, j, n + 1); }
      if j: nat :| LastFree(tr, x, j, n + 1) && HB(tr, i, j) { assert LastFree(tr, x, j, n); }
    }
  }
}

module ClockProof {
  import opened VectorClocks
  import opened RaceDetector
  import opened HappensBeforeOrder

  // ---- what a clock knows ----------------------------------------------------------------

  predicate Ticks(e: Event)
  {
    !e.Malloc? && !e.Free?
  }

  /** The events of u that tick, among the first n. */
  function Count(tr: seq<Event>, n: nat, u: Tid): (r: nat)
    requires n <= |tr|
  {
    if n == 0 then 0 else Count(tr, n - 1, u) + (if tr[n - 1].t == u && Ticks(tr[n - 1]) then 1 else 0)
  }

  /** The epoch of an event in its own thread. */
  function Epoch(tr: seq<Event>, i: nat): nat
    requires i < |tr|
  {
    Count(tr, i + 1, tr[i].t)
  }

  predicate Named(tr: seq<Event>, n: nat, m: nat)
    requires n <= |tr|
  {
    forall i :: 0 <= i < n ==> 1 <= tr[i].t <= m
  }

  predicate Knows(c: Clock, tr: seq<Event>, i: nat)
    requires i < |tr| && 1 <= tr[i].t <= MAX_THREADS
  {
    c[tr[i].t - 1] >= Epoch(tr, i)
  }

  predicate Below(tr: seq<Event>, n: nat, c: Clock)
    requires n <= |tr|
  {
    forall u :: 1 <= u <= MAX_THREADS ==> c[u - 1] <= Count(tr, n, u)
  }

  /** Among the first n events, the clock knows exactly those in s. */
  ghost predicate Holds(tr: seq<Event>, n: nat, c: Clock, s: iset<nat>)
    requires n <= |tr| && Named(tr, n, MAX_THREADS)
  {
    && Below(tr, n, c)
    && (forall i :: 0 <= i < n && Ticks(tr[i]) ==> (Knows(c, tr, i) <==> i in s))
    && (forall i :: i in s ==> i < n)
  }

  lemma {:induction false} CountGrows(tr: seq<Event>, m: nat, n: nat, u: Tid)
    requires m <= n <= |tr|
    ensures Count(tr, m, u) <= Count(tr, n, u)
  {
    if m < n { CountGrows(tr, m, n - 1, u); }
  }

  lemma ZeroHolds(tr: seq<Event>, n: nat)
    requires n <= |tr| && Named(tr, n, MAX_THREADS)
    ensures Holds(tr, n, Zero(), iset{})
  {
    forall i | 0 <= i < n && Ticks(tr[i]) ensures !Knows(Zero(), tr, i) {
      assert Epoch(tr, i) >= 1;
    }
  }

  lemma JoinHolds(tr: seq<Event>, n: nat, c: Clock, s: iset<nat>, d: Clock, z: iset<nat>, m: nat)
    requires n <= |tr| && Named(tr, n, m) && m <= MAX_THREADS && Holds(tr, n, c, s) && Holds(tr, n, d, z)
    ensures Holds(tr, n, Joined(c, d, m), s + z)
  {
    var j := Joined(c, d, m);
    forall i | 0 <= i < n && Ticks(tr[i]) ensures Knows(j, tr, i) <==> i in s + z {
      assert 1 <= tr[i].t <= m;
      assert j[tr[i].t - 1] == Max(c[tr[i].t - 1], d[tr[i].t - 1]);
    }
  }

  lemma AssignHolds(tr: seq<Event>, n: nat, c: Clock, s: iset<nat>, d: Clock, z: iset<nat>, m: nat)
    requires n <= |tr| && Named(tr, n, m) && m <= MAX_THREADS && Holds(tr, n, c, s) && Holds(tr, n, d, z)
    ensures Holds(tr, n, Assigned(c, d, m), z)
  {
    var j := Assigned(c, d, m);
    forall i | 0 <= i < n && Ticks(tr[i]) ensures Knows(j, tr, i) <==> i in z {
      assert 1 <= tr[i].t <= m;
      assert j[tr[i].t - 1] == d[tr[i].t - 1];
    }
  }

  /** A clock that an event does not touch does not know it. */
  lemma NextHolds(tr: seq<Event>, n: nat, c: Clock, s: iset<nat>)
    requires n < |tr| && Named(tr, n + 1, MAX_THREADS) && Holds(tr, n, c, s)
    ensures Holds(tr, n + 1, c, s)
  {
    var m := n + 1;
    forall u | 1 <= u <= MAX_THREADS ensures c[u - 1] <= Count(tr, m, u) { CountGrows(tr, n, m, u); }
    assert c[tr[n].t - 1] <= Count(tr, n, tr[n].t);
    assert Ticks(tr[n]) ==> !Knows(c, tr, n) && n !in s;
  }

  lemma TickHolds(tr: seq<Event>, n: nat, c: Clock, s: iset<nat>)
    requires n < |tr| && Named(tr, n + 1, MAX_THREADS) && Holds(tr, n, c, s)
    requires Ticks(tr[n]) && c[tr[n].t - 1] == Count(tr, n, tr[n].t)
    ensures Holds(tr, n + 1, Ticked(c, tr[n].t), s + iset{n})
    ensures Ticked(c, tr[n].t)[tr[n].t - 1] == Count(tr, n + 1, tr[n].t)
  {
    var t, m := tr[n].t, n + 1;
    var c' := Ticked(c, t);
    forall u | 1 <= u <= MAX_THREADS ensures c'[u - 1] <= Count(tr, m, u) { CountGrows(tr, n, m, u); }
    forall i | 0 <= i < n + 1 && Ticks(tr[i]) ensures Knows(c', tr, i) <==> i in s + iset{n} {
      if i < n && tr[i].t == t { CountGrows(tr, i + 1, n, t); assert Knows(c, tr, i); }
    }
  }

  // ---- the invariant of the run --------------------------------------------------------------

  ghost function Reaches(tr: seq<Event>, n: nat, u: Tid): iset<nat>
    requires n <= |tr|
  {
    iset i: nat | Reached(tr, n, u, i)
  }

  ghost function Releases(tr: seq<Event>, n: nat, u: Tid): iset<nat>
    requires n <= |tr|
  {
    iset i: nat | Released(tr, n, u, i)
  }

  ghost function Acquires(tr: seq<Event>, n: nat, u: Tid): iset<nat>
    requires n <= |tr|
  {
    iset i: nat | Acquired(tr, n, u, i)
  }

  ghost function Stores(tr: seq<Event>, n: nat, x: Loc): iset<nat>
    requires n <= |tr|
  {
    iset i: nat | Stored(tr, n, x, i)
  }

  ghost function Frees(tr: seq<Event>, n: nat, x: Loc): iset<nat>
    requires n <= |tr|
  {
    iset i: nat | Freed(tr, n, x, i)
  }

  ghost function Before(tr: seq<Event>, n: nat): iset<nat>
    requires n < |tr|
  {
    iset i: nat | HB(tr, i, n)
  }

  ghost predicate ThreadHolds(tr: seq<Event>, n: nat, c: ThreadClock, u: Tid)
    requires n <= |tr| && Named(tr, n, MAX_THREADS) && 1 <= u <= MAX_THREADS
  {
    && c.epoch == c.current[u - 1] == Count(tr, n, u)
    && Holds(tr, n, c.current, Reaches(tr, n, u))
    && Holds(tr, n, c.acquire, Acquires(tr, n, u))
    && Holds(tr, n, c.release, Releases(tr, n, u))
  }

  ghost predicate ClocksHold(tr: seq<Event>, n: nat, d: Detector)
    requires n <= |tr|
  {
    && 1 <= |d.threads| <= MAX_THREADS && Named(tr, n, |d.threads|)
    && (forall u {:trigger ThreadAt(tr, n, d, u)} :: 1 <= u <= |d.threads| ==> ThreadAt(tr, n, d, u))
    && (forall x {:trigger StoreAt(tr, n, d, x)} :: x in d.atomics ==> StoreAt(tr, n, d, x))
    && (forall x: Loc {:trigger FreeAt(tr, n, d, x)} :: FreeAt(tr, n, d, x))
  }

  ghost predicate ThreadAt(tr: seq<Event>, n: nat, d: Detector, u: Tid)
    requires n <= |tr| && Named(tr, n, MAX_THREADS) && 1 <= u <= |d.threads| <= MAX_THREADS
  {
    ThreadHolds(tr, n, d.threads[u - 1], u)
  }

  ghost predicate StoreAt(tr: seq<Event>, n: nat, d: Detector, x: Loc)
    requires n <= |tr| && Named(tr, n, MAX_THREADS) && x in d.atomics
  {
    Holds(tr, n, d.atomics[x].clock, Stores(tr, n, x))
  }

  ghost predicate FreeAt(tr: seq<Event>, n: nat, d: Detector, x: Loc)
    requires n <= |tr| && Named(tr, n, MAX_THREADS)
  {
    Holds(tr, n, FreeClock(d, x), Frees(tr, n, x))
  }

  // ---- one event --------------------------------------------------------------------------------

  lemma OtherThread(tr: seq<Event>, n: nat, c: ThreadClock, u: Tid)
    requires n < |tr| && Named(tr, n + 1, MAX_THREADS) && 1 <= u <= MAX_THREADS && ThreadHolds(tr, n, c, u) && tr[n].t != u
    ensures ThreadHolds(tr, n + 1, c, u)
  {
    forall i: nat ensures (Reached(tr, n + 1, u, i) <==> Reached(tr, n, u, i)) && (Acquired(tr, n + 1, u, i) <==> Acquired(tr, n, u, i))
      && (Released(tr, n + 1, u, i) <==> Released(tr, n, u, i))
    {
      ReachedNext(tr, n, u, i);
      AcquiredNext(tr, n, u, i);
      ReleasedNext(tr, n, u, i);
    }
    assert Reaches(tr, n + 1, u) == Reaches(tr, n, u);
    assert Acquires(tr, n + 1, u) == Acquires(tr, n, u);
    assert Releases(tr, n + 1, u) == Releases(tr, n, u);
    NextHolds(tr, n, c.current, Reaches(tr, n, u));
    NextHolds(tr, n, c.acquire, Acquires(tr, n, u));
    NextHolds(tr, n, c.release, Releases(tr, n, u));
  }

  lemma OtherStore(tr: seq<Event>, n: nat, c: Clock, x: Loc)
    requires n < |tr| && Named(tr, n + 1, MAX_THREADS) && Holds(tr, n, c, Stores(tr, n, x))
    requires !Breaks(tr[n], x) && !Writes(tr[n], x)
    ensures Holds(tr, n + 1, c, Stores(tr, n + 1, x))
  {
    forall i: nat ensures Stored(tr, n + 1, x, i) <==> Stored(tr, n, x, i) { StoredNext(tr, n, x, i); }
    assert Stores(tr, n + 1, x) == Stores(tr, n, x);
    NextHolds(tr, n, c, Stores(tr, n, x));
  }

  lemma OtherFree(tr: seq<Event>, n: nat, c: Clock, x: Loc)
    requires n < |tr| && Named(tr, n + 1, MAX_THREADS) && Holds(tr, n, c, Frees(tr, n, x))
    requires !(tr[n].Free? && tr[n].x == x)
    ensures Holds(tr, n + 1, c, Frees(tr, n + 1, x))
  {
    forall i: nat ensures Freed(tr, n + 1, x, i) <==> Freed(tr, n, x, i) { FreedNext(tr, n, x, i); }
    assert Frees(tr, n + 1, x) == Frees(tr, n, x);
    NextHolds(tr, n, c, Frees(tr, n, x));
  }

  /** The thread of the event: what its three clocks have to know afterwards. */
  ghost predicate OwnHolds(tr: seq<Event>, n: nat, c: ThreadClock)
    requires n < |tr| && Named(tr, n + 1, MAX_THREADS)
  {
    var t := tr[n].t;
    && c.epoch == c.current[t - 1] == Count(tr, n + 1, t)
    && Holds(tr, n + 1, c.current, Before(tr, n))
    && Holds(tr, n + 1, c.acquire, Acquires(tr, n + 1, t))
    && Holds(tr, n + 1, c.release, if IsRelease(tr[n]) then Before(tr, n) else Releases(tr, n, t))
  }

  lemma OwnThread(tr: seq<Event>, n: nat, c: ThreadClock)
    requires n < |tr| && Named(tr, n + 1, MAX_THREADS) && OwnHolds(tr, n, c)
    ensures ThreadHolds(tr, n + 1, c, tr[n].t)
  {
    var t := tr[n].t;
    forall i: nat ensures (Reached(tr, n + 1, t, i) <==> HB(tr, i, n))
      && (Released(tr, n + 1, t, i) <==> if IsRelease(tr[n]) then HB(tr, i, n) else Released(tr, n, t, i))
    {
      ReachedNext(tr, n, t, i);
      ReleasedNext(tr, n, t, i);
    }
    assert Reaches(tr, n + 1, t) == Before(tr, n);
    assert Releases(tr, n + 1, t) == if IsRelease(tr[n]) then Before(tr, n) else Releases(tr, n, t);
  }

  lemma NoneYet(tr: seq<Event>, n: nat, t: Tid, m: nat)
    requires n <= |tr| && Named(tr, n, m) && t > m
    ensures Reaches(tr, n, t) == iset{} && Acquires(tr, n, t) == iset{} && Releases(tr, n, t) == iset{}
    ensures Count(tr, n, t) == 0
  {
    if n > 0 { NoneYet(tr, n - 1, t, m); }
  }

  lemma AcquiresSame(tr: seq<Event>, n: nat)
    requires n < |tr| && !Reads(tr[n])
    ensures Acquires(tr, n + 1, tr[n].t) == Acquires(tr, n, tr[n].t)
  {
    forall i: nat ensures Acquired(tr, n + 1, tr[n].t, i) <==> Acquired(tr, n, tr[n].t, i) { AcquiredNext(tr, n, tr[n].t, i); }
  }

  lemma AcquiresMore(tr: seq<Event>, n: nat)
    requires n < |tr| && Reads(tr[n])
    ensures Acquires(tr, n + 1, tr[n].t) == Acquires(tr, n, tr[n].t) + Stores(tr, n, tr[n].x)
  {
    var t, x := tr[n].t, tr[n].x;
    forall i: nat ensures i in Acquires(tr, n + 1, t) <==> i in Acquires(tr, n, t) + Stores(tr, n, x) { AcquiredNext(tr, n, t, i); }
  }

  /** Program order only. */
  lemma PlainBefore(tr: seq<Event>, n: nat)
    requires n < |tr| && !tr[n].Spawn? && !tr[n].Wake? && !tr[n].Malloc? && !IsAcquire(tr[n])
    ensures Before(tr, n) == Reaches(tr, n, tr[n].t) + iset{n}
  {
    forall i: nat ensures HB(tr, i, n) <==> i in Reaches(tr, n, tr[n].t) + iset{n} { Arrival(tr, n, i); }
  }

  lemma AcquireBefore(tr: seq<Event>, n: nat)
    requires n < |tr| && IsAcquire(tr[n])
    ensures Before(tr, n) == Reaches(tr, n, tr[n].t) + iset{n} + Acquires(tr, n + 1, tr[n].t)
  {
    forall i: nat ensures HB(tr, i, n) <==> i in Reaches(tr, n, tr[n].t) + iset{n} + Acquires(tr, n + 1, tr[n].t) { Arrival(tr, n, i); }
  }

  lemma WakeBefore(tr: seq<Event>, n: nat)
    requires n < |tr| && tr[n].Wake?
    ensures Before(tr, n) == Reaches(tr, n, tr[n].t) + Releases(tr, n, tr[n].waker) + iset{n}
  {
    forall i: nat ensures HB(tr, i, n) <==> i in Reaches(tr, n, tr[n].t) + Releases(tr, n, tr[n].waker) + iset{n} { Arrival(tr, n, i); }
  }

  lemma MallocBefore(tr: seq<Event>, n: nat)
    requires n < |tr| && tr[n].Malloc?
    ensures Before(tr, n) == Reaches(tr, n, tr[n].t) + Frees(tr, n, tr[n].x) + iset{n}
  {
    forall i: nat ensures HB(tr, i, n) <==> i in Reaches(tr, n, tr[n].t) + Frees(tr, n, tr[n].x) + iset{n} { Arrival(tr, n, i); }
  }

  lemma SpawnBefore(tr: seq<Event>, n: nat)
    requires n < |tr| && tr[n].Spawn? && Reaches(tr, n, tr[n].t) == iset{}
    ensures Before(tr, n) == Reaches(tr, n, tr[n].parent) + iset{n}
  {
    forall i: nat ensures HB(tr, i, n) <==> i in Reaches(tr, n, tr[n].parent) + iset{n} {
      Arrival(tr, n, i);
      assert i !in Reaches(tr, n, tr[n].t);
    }
  }

  // ---- the three clocks of the event's thread ---------------------------------------------------

  /** A thread's own entry is not raised by a clock that knows no more than what happened. */
  lemma OwnEntry(tr: seq<Event>, n: nat, c: Clock, d: Clock, m: nat, t: Tid)
    requires n <= |tr| && 1 <= t <= MAX_THREADS && c[t - 1] == Count(tr, n, t) && Below(tr, n, d)
    ensures Joined(c, d, m)[t - 1] == Count(tr, n, t)
  {
    assert d[t - 1] <= Count(tr, n, t);
  }

  /** Acquire and release clocks that the event leaves alone. */
  lemma RestKept(tr: seq<Event>, n: nat, c: ThreadClock)
    requires n < |tr| && Named(tr, n + 1, MAX_THREADS) && ThreadHolds(tr, n, c, tr[n].t) && !Reads(tr[n])
    ensures Holds(tr, n + 1, c.acquire, Acquires(tr, n + 1, tr[n].t)) && Holds(tr, n + 1, c.release, Releases(tr, n, tr[n].t))
  {
    AcquiresSame(tr, n);
    NextHolds(tr, n, c.acquire, Acquires(tr, n, tr[n].t));
    NextHolds(tr, n, c.release, Releases(tr, n, tr[n].t));
  }

  /** The current clock after the tick. */
  lemma PlainHolds(tr: seq<Event>, n: nat, c: Clock)
    requires n < |tr| && Named(tr, n + 1, MAX_THREADS) && Ticks(tr[n]) && !tr[n].Spawn? && !tr[n].Wake? && !IsAcquire(tr[n])
    requires Holds(tr, n, c, Reaches(tr, n, tr[n].t)) && c[tr[n].t - 1] == Count(tr, n, tr[n].t)
    ensures Holds(tr, n + 1, Ticked(c, tr[n].t), Before(tr, n))
  {
    TickHolds(tr, n, c, Reaches(tr, n, tr[n].t));
    PlainBefore(tr, n);
  }

  /** The current clock after the tick and an acquire. */
  lemma AcquiredHolds(tr: seq<Event>, n: nat, c: Clock, acq: Clock, m: nat)
    requires n < |tr| && m <= MAX_THREADS && Named(tr, n + 1, m) && Ticks(tr[n]) && IsAcquire(tr[n])
    requires Holds(tr, n, c, Reaches(tr, n, tr[n].t)) && c[tr[n].t - 1] == Count(tr, n, tr[n].t)
    requires Holds(tr, n + 1, acq, Acquires(tr, n + 1, tr[n].t))
    ensures Holds(tr, n + 1, Joined(Ticked(c, tr[n].t), acq, m), Before(tr, n))
  {
    var t := tr[n].t;
    TickHolds(tr, n, c, Reaches(tr, n, t));
    AcquireBefore(tr, n);
    JoinHolds(tr, n + 1, Ticked(c, t), Reaches(tr, n, t) + iset{n}, acq, Acquires(tr, n + 1, t), m);
  }

  lemma CurrentHolds(tr: seq<Event>, n: nat, c: Clock, acq: Clock, m: nat)
    requires n < |tr| && m <= MAX_THREADS && Named(tr, n + 1, m) && Ticks(tr[n]) && !tr[n].Spawn? && !tr[n].Wake?
    requires Holds(tr, n, c, Reaches(tr, n, tr[n].t)) && c[tr[n].t - 1] == Count(tr, n, tr[n].t)
    requires Holds(tr, n + 1, acq, Acquires(tr, n + 1, tr[n].t))
    ensures var cur := if IsAcquire(tr[n]) then Joined(Ticked(c, tr[n].t), acq, m) else Ticked(c, tr[n].t);
            Holds(tr, n + 1, cur, Before(tr, n)) && cur[tr[n].t - 1] == Count(tr, n + 1, tr[n].t)
  {
    TickHolds(tr, n, c, Reaches(tr, n, tr[n].t));
    if IsAcquire(tr[n]) {
      AcquiredHolds(tr, n, c, acq, m);
      OwnEntry(tr, n + 1, Ticked(c, tr[n].t), acq, m, tr[n].t);
    } else {
      PlainHolds(tr, n, c);
    }
  }

  /** The tick, and then the fences that belong to the event. */
  lemma TickedOwn(tr: seq<Event>, n: nat, c: ThreadClock, acq: Clock, m: nat)
    requires n < |tr| && m <= MAX_THREADS && Named(tr, n + 1, m) && ThreadHolds(tr, n, c, tr[n].t)
    requires Ticks(tr[n]) && !tr[n].Spawn? && !tr[n].Wake? && Holds(tr, n + 1, acq, Acquires(tr, n + 1, tr[n].t))
    ensures var ticked := ThreadClock(Ticked(c.current, tr[n].t), acq, c.release, c.epoch + 1);
            OwnHolds(tr, n, Fenced(ticked, m, IsAcquire(tr[n]), IsRelease(tr[n])))
  {
    var t := tr[n].t;
    var cur := if IsAcquire(tr[n]) then Joined(Ticked(c.current, t), acq, m) else Ticked(c.current, t);
    CurrentHolds(tr, n, c.current, acq, m);
    ReleaseHolds(tr, n, c.release, cur, m);
    var ticked := ThreadClock(Ticked(c.current, t), acq, c.release, c.epoch + 1);
    var after := Fenced(ticked, m, IsAcquire(tr[n]), IsRelease(tr[n]));
    assert after.current == cur && after.acquire == acq && after.epoch == c.epoch + 1;
    assert Count(tr, n + 1, t) == Count(tr, n, t) + 1;
  }

  /** The release clock takes over the current one, or stays. */
  lemma ReleaseHolds(tr: seq<Event>, n: nat, rel: Clock, cur: Clock, m: nat)
    requires n < |tr| && m <= MAX_THREADS && Named(tr, n + 1, m)
    requires Holds(tr, n, rel, Releases(tr, n, tr[n].t)) && Holds(tr, n + 1, cur, Before(tr, n))
    ensures if IsRelease(tr[n]) then Holds(tr, n + 1, Assigned(rel, cur, m), Before(tr, n))
            else Holds(tr, n + 1, rel, Releases(tr, n, tr[n].t))
  {
    NextHolds(tr, n, rel, Releases(tr, n, tr[n].t));
    if IsRelease(tr[n]) { AssignHolds(tr, n + 1, rel, Releases(tr, n, tr[n].t), cur, Before(tr, n), m); }
  }

  /** The thread joins a clock, and ticks if the event does. */
  lemma JoinedOwn(tr: seq<Event>, n: nat, c: ThreadClock, z: Clock, zs: iset<nat>, m: nat)
    requires n < |tr| && m <= MAX_THREADS && Named(tr, n + 1, m) && ThreadHolds(tr, n, c, tr[n].t) && Holds(tr, n, z, zs)
    requires !Reads(tr[n]) && !IsRelease(tr[n]) && Before(tr, n) == Reaches(tr, n, tr[n].t) + zs + iset{n}
    ensures var j := Joined(c.current, z, m);
            OwnHolds(tr, n, if Ticks(tr[n]) then ThreadClock(Ticked(j, tr[n].t), c.acquire, c.release, c.epoch + 1) else c.(current := j))
  {
    var t, j := tr[n].t, Joined(c.current, z, m);
    assert Named(tr, n, m);
    JoinHolds(tr, n, c.current, Reaches(tr, n, t), z, zs, m);
    OwnEntry(tr, n, c.current, z, m, t);
    RestKept(tr, n, c);
    if Ticks(tr[n]) { TickHolds(tr, n, j, Reaches(tr, n, t) + zs); } else { UntickedHolds(tr, n, j, Reaches(tr, n, t) + zs); }
  }

  /** A clock that takes no tick may still come to know the event, which no clock has to. */
  lemma UntickedHolds(tr: seq<Event>, n: nat, c: Clock, s: iset<nat>)
    requires n < |tr| && Named(tr, n + 1, MAX_THREADS) && Holds(tr, n, c, s) && !Ticks(tr[n])
    ensures Holds(tr, n + 1, c, s + iset{n})
  {
    NextHolds(tr, n, c, s);
  }

  /** A child starts with what its parent knows. */
  lemma SpawnedOwn(tr: seq<Event>, n: nat, parent: ThreadClock, k: nat)
    requires n < |tr| && tr[n].Spawn? && tr[n].t == k + 1 <= MAX_THREADS && Named(tr, n, k) && 1 <= tr[n].parent <= k
    requires ThreadHolds(tr, n, parent, tr[n].parent)
    ensures Named(tr, n + 1, k + 1)
    ensures OwnHolds(tr, n, ThreadClock(Ticked(Assigned(Zero(), parent.current, k + 1), k + 1), Zero(), Zero(), 1))
  {
    var p, t := tr[n].parent, k + 1;
    var c := Assigned(Zero(), parent.current, t);
    NoneYet(tr, n, t, k);
    ZeroHolds(tr, n);
    AssignHolds(tr, n, Zero(), iset{}, parent.current, Reaches(tr, n, p), t);
    assert c[t - 1] == 0 by { assert parent.current[t - 1] <= Count(tr, n, t); }
    TickHolds(tr, n, c, Reaches(tr, n, p));
    NextHolds(tr, n, Zero(), iset{});
    AcquiresSame(tr, n);
    SpawnBefore(tr, n);
  }

  // ---- assembling the detector after an event -------------------------------------------------

  ghost predicate ThreadsFollow(tr: seq<Event>, n: nat, d: Detector, d': Detector)
    requires n < |tr|
  {
    && 1 <= tr[n].t <= |d'.threads| <= MAX_THREADS && |d.threads| <= |d'.threads| && Named(tr, n + 1, |d'.threads|)
    && forall u {:trigger SameThread(d, d', u)} :: 1 <= u <= |d'.threads| && u != tr[n].t ==> SameThread(d, d', u)
  }

  predicate SameThread(d: Detector, d': Detector, u: Tid)
    requires 1 <= u <= |d'.threads|
  {
    u <= |d.threads| && d'.threads[u - 1] == d.threads[u - 1]
  }

  ghost predicate StoreFollows(tr: seq<Event>, n: nat, d: Detector, d': Detector, x: Loc)
    requires n < |tr| && Named(tr, n + 1, MAX_THREADS) && x in d'.atomics
  {
    || (x in d.atomics && d'.atomics[x].clock == d.atomics[x].clock && !Breaks(tr[n], x) && !Writes(tr[n], x))
    || Holds(tr, n + 1, d'.atomics[x].clock, Stores(tr, n + 1, x))
  }

  ghost predicate FreeFollows(tr: seq<Event>, n: nat, d: Detector, d': Detector, x: Loc)
    requires n < |tr| && Named(tr, n + 1, MAX_THREADS)
  {
    || (FreeClock(d', x) == FreeClock(d, x) && !(tr[n].Free? && tr[n].x == x))
    || Holds(tr, n + 1, FreeClock(d', x), Frees(tr, n + 1, x))
  }

  lemma FollowsHold(tr: seq<Event>, n: nat, d: Detector, d': Detector)
    requires n < |tr| && ClocksHold(tr, n, d) && ThreadsFollow(tr, n, d, d') && OwnHolds(tr, n, d'.threads[tr[n].t - 1])
    requires forall x :: x in d'.atomics ==> StoreFollows(tr, n, d, d', x)
    requires forall x: Loc :: FreeFollows(tr, n, d, d', x)
    ensures ClocksHold(tr, n + 1, d')
  {
    var k := n + 1;
    forall u | 1 <= u <= |d'.threads| ensures ThreadAt(tr, k, d', u) {
      if u == tr[n].t {
        OwnThread(tr, n, d'.threads[u - 1]);
      } else {
        assert SameThread(d, d', u) && ThreadAt(tr, n, d, u);
        OtherThread(tr, n, d.threads[u - 1], u);
      }
    }
    forall x | x in d'.atomics ensures StoreAt(tr, k, d', x) {
      assert StoreFollows(tr, n, d, d', x);
      if x in d.atomics && d'.atomics[x].clock == d.atomics[x].clock && !Breaks(tr[n], x) && !Writes(tr[n], x) {
        assert StoreAt(tr, n, d, x);
        OtherStore(tr, n, d.atomics[x].clock, x);
      }
    }
    forall x: Loc ensures FreeAt(tr, k, d', x) {
      assert FreeFollows(tr, n, d, d', x);
      if !(tr[n].Free? && tr[n].x == x) && FreeClock(d', x) == FreeClock(d, x) {
        assert FreeAt(tr, n, d, x);
        OtherFree(tr, n, FreeClock(d, x), x);
      }
    }
  }

  /** Events that only tick, and fences. */
  lemma FenceOwn(tr: seq<Event>, n: nat, d: Detector)
    requires n < |tr| && ClocksHold(tr, n, d) && Named(tr, n + 1, |d.threads|)
    requires Ticks(tr[n]) && !tr[n].Spawn? && !tr[n].Wake? && !Reads(tr[n])
    ensures OwnHolds(tr, n, Fenced(Tick(d, tr[n].t), |d.threads|, IsAcquire(tr[n]), IsRelease(tr[n])))
  {
    var c := d.threads[tr[n].t - 1];
    assert ThreadAt(tr, n, d, tr[n].t);
    RestKept(tr, n, c);
    TickedOwn(tr, n, c, c.acquire, |d.threads|);
  }

  lemma AcquireHolds(tr: seq<Event>, n: nat, acq: Clock, z: Clock, m: nat)
    requires n < |tr| && m <= MAX_THREADS && Named(tr, n + 1, m) && Reads(tr[n])
    requires Holds(tr, n, acq, Acquires(tr, n, tr[n].t)) && Holds(tr, n, z, Stores(tr, n, tr[n].x))
    ensures Holds(tr, n + 1, Joined(acq, z, m), Acquires(tr, n + 1, tr[n].t))
  {
    var t, x := tr[n].t, tr[n].x;
    NextHolds(tr, n, acq, Acquires(tr, n, t));
    NextHolds(tr, n, z, Stores(tr, n, x));
    JoinHolds(tr, n + 1, acq, Acquires(tr, n, t), z, Stores(tr, n, x), m);
    AcquiresMore(tr, n);
  }

  lemma LoadOwn(tr: seq<Event>, n: nat, d: Detector)
    requires n < |tr| && ClocksHold(tr, n, d) && Named(tr, n + 1, |d.threads|) && Reads(tr[n]) && tr[n].x in d.atomics
    ensures OwnHolds(tr, n, Load(d, tr[n].t, tr[n].x, tr[n].mo).threads[tr[n].t - 1])
  {
    var t, m := tr[n].t, |d.threads|;
    var c, z := d.threads[t - 1], d.atomics[tr[n].x].clock;
    assert ThreadAt(tr, n, d, t) && StoreAt(tr, n, d, tr[n].x);
    AcquireHolds(tr, n, c.acquire, z, m);
    TickedOwn(tr, n, c, Joined(c.acquire, z, m), m);
  }

  /** The clock of the store, once the writer's own clocks are settled. */
  lemma StoreHolds(tr: seq<Event>, n: nat, d: Detector, rel: Clock)
    requires n < |tr| && ClocksHold(tr, n, d) && Named(tr, n + 1, |d.threads|)
    requires (tr[n].AtomicStore? || tr[n].AtomicRmwCommit?) && tr[n].x in d.atomics
    requires Holds(tr, n + 1, rel, Releases(tr, n + 1, tr[n].t))
    ensures var was, m := d.atomics[tr[n].x].clock, |d.threads|;
            Holds(tr, n + 1, if tr[n].AtomicRmwCommit? then Joined(was, rel, m) else Assigned(was, rel, m), Stores(tr, n + 1, tr[n].x))
  {
    var e, x, m := tr[n], tr[n].x, |d.threads|;
    var was, z := d.atomics[x].clock, Releases(tr, n + 1, e.t);
    assert StoreAt(tr, n, d, x);
    NextHolds(tr, n, was, Stores(tr, n, x));
    JoinHolds(tr, n + 1, was, Stores(tr, n, x), rel, z, m);
    AssignHolds(tr, n + 1, was, Stores(tr, n, x), rel, z, m);
    forall i: nat ensures i in Stores(tr, n + 1, x) <==> (i in z || (e.AtomicRmwCommit? && i in Stores(tr, n, x))) { StoredNext(tr, n, x, i); }
    assert Stores(tr, n + 1, x) == if e.AtomicRmwCommit? then Stores(tr, n, x) + z else z;
  }

  /** Events that leave the clocks of atomics and frees alone. */
  lemma LocalKeeps(tr: seq<Event>, n: nat, d: Detector, d': Detector, c: ThreadClock)
    requires n < |tr| && ClocksHold(tr, n, d) && Named(tr, n + 1, |d.threads|) && OwnHolds(tr, n, c)
    requires d'.threads == d.threads[tr[n].t - 1 := c] && d'.frees == d.frees && !tr[n].Free?
    requires forall x :: x in d'.atomics ==>
               x in d.atomics && d'.atomics[x].clock == d.atomics[x].clock && !Breaks(tr[n], x) && !Writes(tr[n], x)
    ensures ClocksHold(tr, n + 1, d')
  {
    forall x: Loc ensures FreeFollows(tr, n, d, d', x) {}
    FollowsHold(tr, n, d, d');
  }

  lemma AccessKeeps(tr: seq<Event>, n: nat, d: Detector, d': Detector)
    requires n < |tr| && ClocksHold(tr, n, d) && Exists(d, tr[n].t) && Apply(d, tr[n]) == Ok(d') && tr[n].Access?
    ensures ClocksHold(tr, n + 1, d')
  {
    assert Named(tr, n + 1, |d.threads|);
    FenceOwn(tr, n, d);
    LocalKeeps(tr, n, d, d', Tick(d, tr[n].t));
  }

  lemma FenceKeeps(tr: seq<Event>, n: nat, d: Detector, d': Detector)
    requires n < |tr| && ClocksHold(tr, n, d) && Exists(d, tr[n].t) && Apply(d, tr[n]) == Ok(d')
    requires tr[n].AtomicDestroy? || tr[n].AtomicDebugLoad? || tr[n].AtomicThreadFence?
    ensures ClocksHold(tr, n + 1, d')
  {
    assert Named(tr, n + 1, |d.threads|);
    FenceOwn(tr, n, d);
    var c := Fenced(Tick(d, tr[n].t), |d.threads|, IsAcquire(tr[n]), IsRelease(tr[n]));
    FenceApplies(d, tr[n], d');
    LocalKeeps(tr, n, d, d', c);
  }

  lemma FenceApplies(d: Detector, e: Event, d': Detector)
    requires Apply(d, e) == Ok(d') && (e.AtomicDestroy? || e.AtomicDebugLoad? || e.AtomicThreadFence?)
    ensures Exists(d, e.t) && d'.frees == d.frees
    ensures d'.threads == d.threads[e.t - 1 := Fenced(Tick(d, e.t), |d.threads|, IsAcquire(e), IsRelease(e))]
    ensures forall x :: x in d'.atomics ==> x in d.atomics && d'.atomics[x].clock == d.atomics[x].clock
  {}

  lemma LoadKeeps(tr: seq<Event>, n: nat, d: Detector, d': Detector)
    requires n < |tr| && ClocksHold(tr, n, d) && Exists(d, tr[n].t) && Apply(d, tr[n]) == Ok(d') && Reads(tr[n])
    ensures ClocksHold(tr, n + 1, d')
  {
    assert Named(tr, n + 1, |d.threads|);
    LoadOwn(tr, n, d);
    LocalKeeps(tr, n, d, d', d'.threads[tr[n].t - 1]);
  }

  /** Events that change one store clock, besides the thread's own. */
  lemma AtomicKeeps(tr: seq<Event>, n: nat, d: Detector, d': Detector, x: Loc)
    requires n < |tr| && ClocksHold(tr, n, d) && Named(tr, n + 1, |d.threads|) && x in d'.atomics && |d'.threads| == |d.threads|
    requires d' == d.(threads := d.threads[tr[n].t - 1 := d'.threads[tr[n].t - 1]], atomics := d.atomics[x := d'.atomics[x]])
    requires OwnHolds(tr, n, d'.threads[tr[n].t - 1]) && Holds(tr, n + 1, d'.atomics[x].clock, Stores(tr, n + 1, x))
    requires tr[n].AtomicInit? || tr[n].AtomicStore? || tr[n].AtomicRmwCommit?
    requires tr[n].x == x
    ensures ClocksHold(tr, n + 1, d')
  {
    forall y: Loc ensures FreeFollows(tr, n, d, d', y) {}
    forall y | y in d'.atomics ensures StoreFollows(tr, n, d, d', y) {}
    FollowsHold(tr, n, d, d');
  }

  lemma InitKeeps(tr: seq<Event>, n: nat, d: Detector, d': Detector)
    requires n < |tr| && ClocksHold(tr, n, d) && Exists(d, tr[n].t) && Apply(d, tr[n]) == Ok(d') && tr[n].AtomicInit?
    ensures ClocksHold(tr, n + 1, d')
  {
    var x, m := tr[n].x, n + 1;
    assert Named(tr, m, |d.threads|);
    FenceOwn(tr, n, d);
    forall i: nat ensures !Stored(tr, m, x, i) { StoredNext(tr, n, x, i); }
    assert Stores(tr, m, x) == iset{};
    ZeroHolds(tr, m);
    AtomicKeeps(tr, n, d, d', x);
  }

  lemma StoreKeeps(tr: seq<Event>, n: nat, d: Detector, d': Detector)
    requires n < |tr| && ClocksHold(tr, n, d) && Exists(d, tr[n].t) && Apply(d, tr[n]) == Ok(d')
    requires tr[n].AtomicStore? || tr[n].AtomicRmwCommit?
    ensures ClocksHold(tr, n + 1, d')
  {
    var t, x := tr[n].t, tr[n].x;
    assert Named(tr, n + 1, |d.threads|);
    assert d' == Store(d, t, x, tr[n].mo, tr[n].AtomicRmwCommit?);
    var c := d'.threads[t - 1];
    FenceOwn(tr, n, d);
    assert OwnHolds(tr, n, c);
    OwnThread(tr, n, c);
    StoreHolds(tr, n, d, c.release);
    AtomicKeeps(tr, n, d, d', x);
  }

  // ---- spawn, wake, malloc, free --------------------------------------------------------------------

  lemma SpawnKeeps(tr: seq<Event>, n: nat, d: Detector, d': Detector)
    requires n < |tr| && ClocksHold(tr, n, d) && tr[n].Spawn? && Apply(d, tr[n]) == Ok(d')
    ensures ClocksHold(tr, n + 1, d')
  {
    var p, k := tr[n].parent, |d.threads|;
    assert ThreadAt(tr, n, d, p);
    SpawnedOwn(tr, n, d.threads[p - 1], k);
    assert d'.threads == d.threads + [ThreadClock(Ticked(Assigned(Zero(), d.threads[p - 1].current, k + 1), k + 1), Zero(), Zero(), 1)];
    forall x: Loc ensures FreeFollows(tr, n, d, d', x) {}
    FollowsHold(tr, n, d, d');
  }

  lemma WokenOwn(tr: seq<Event>, n: nat, was: ThreadClock, waker: ThreadClock, m: nat)
    requires n < |tr| && tr[n].Wake? && m <= MAX_THREADS && Named(tr, n + 1, m) && 1 <= tr[n].waker <= MAX_THREADS
    requires ThreadHolds(tr, n, was, tr[n].t) && ThreadHolds(tr, n, waker, tr[n].waker)
    ensures OwnHolds(tr, n, ThreadClock(Ticked(Joined(was.current, waker.release, m), tr[n].t), was.acquire, was.release, was.epoch + 1))
  {
    WakeBefore(tr, n);
    JoinedOwn(tr, n, was, waker.release, Releases(tr, n, tr[n].waker), m);
  }

  lemma WakeKeeps(tr: seq<Event>, n: nat, d: Detector, d': Detector)
    requires n < |tr| && ClocksHold(tr, n, d) && tr[n].Wake? && Apply(d, tr[n]) == Ok(d')
    ensures ClocksHold(tr, n + 1, d')
  {
    var w, t, m := tr[n].waker, tr[n].t, |d.threads|;
    var waker, was := d.threads[w - 1], d.threads[t - 1];
    assert Named(tr, n + 1, m) && ThreadAt(tr, n, d, w) && ThreadAt(tr, n, d, t);
    WokenOwn(tr, n, was, waker, m);
    WakeApplies(d, w, t, d');
    LocalKeeps(tr, n, d, d', d'.threads[t - 1]);
  }

  lemma WakeApplies(d: Detector, w: Tid, t: Tid, d': Detector)
    requires Apply(d, Wake(w, t)) == Ok(d')
    ensures Exists(d, w) && Exists(d, t)
    ensures var was := d.threads[t - 1];
            var c := Joined(was.current, d.threads[w - 1].release, |d.threads|);
            d' == With(d, t, ThreadClock(Ticked(c, t), was.acquire, was.release, was.epoch + 1))
  {}

  lemma MallocKeeps(tr: seq<Event>, n: nat, d: Detector, d': Detector)
    requires n < |tr| && ClocksHold(tr, n, d) && tr[n].Malloc? && Apply(d, tr[n]) == Ok(d')
    ensures ClocksHold(tr, n + 1, d')
  {
    var x, t, m := tr[n].x, tr[n].t, |d.threads|;
    var was, f := d.threads[t - 1], FreeClock(d, x);
    assert Named(tr, n + 1, m) && ThreadAt(tr, n, d, t) && FreeAt(tr, n, d, x);
    MallocBefore(tr, n);
    JoinedOwn(tr, n, was, f, Frees(tr, n, x), m);
    LocalKeeps(tr, n, d, d', was.(current := Joined(was.current, f, m)));
  }

  lemma FreedHolds(tr: seq<Event>, n: nat, c: ThreadClock, f: Clock, m: nat)
    requires n < |tr| && m <= MAX_THREADS && Named(tr, n + 1, m) && tr[n].Free?
    requires ThreadHolds(tr, n, c, tr[n].t) && Holds(tr, n, f, Frees(tr, n, tr[n].x))
    ensures OwnHolds(tr, n, c) && Holds(tr, n + 1, Assigned(f, c.current, m), Frees(tr, n + 1, tr[n].x))
  {
    var x, t := tr[n].x, tr[n].t;
    PlainBefore(tr, n);
    UntickedHolds(tr, n, c.current, Reaches(tr, n, t));
    RestKept(tr, n, c);
    NextHolds(tr, n, f, Frees(tr, n, x));
    AssignHolds(tr, n + 1, f, Frees(tr, n, x), c.current, Before(tr, n), m);
    forall i: nat ensures i in Frees(tr, n + 1, x) <==> i in Before(tr, n) { FreedNext(tr, n, x, i); }
    assert Frees(tr, n + 1, x) == Before(tr, n);
  }

  lemma FreeKeeps(tr: seq<Event>, n: nat, d: Detector, d': Detector)
    requires n < |tr| && ClocksHold(tr, n, d) && tr[n].Free? && Apply(d, tr[n]) == Ok(d')
    ensures ClocksHold(tr, n + 1, d')
  {
    var x, t, m := tr[n].x, tr[n].t, |d.threads|;
    assert Named(tr, n + 1, m) && ThreadAt(tr, n, d, t) && FreeAt(tr, n, d, x);
    FreedHolds(tr, n, d.threads[t - 1], FreeClock(d, x), m);
    forall y: Loc ensures FreeFollows(tr, n, d, d', y) {}
    FollowsHold(tr, n, d, d');
  }

  lemma EventKeeps(tr: seq<Event>, n: nat, d: Detector, d': Detector)
    requires n < |tr| && ClocksHold(tr, n, d) && Apply(d, tr[n]) == Ok(d')
    ensures ClocksHold(tr, n + 1, d')
  {
    match tr[n]
    case Spawn(_, _) => SpawnKeeps(tr, n, d, d');
    case Wake(_, _) => WakeKeeps(tr, n, d, d');
    case Malloc(_, _) => MallocKeeps(tr, n, d, d');
    case Free(_, _) => FreeKeeps(tr, n, d, d');
    case AtomicInit(_, _) => InitKeeps(tr, n, d, d');
    case AtomicStore(_, _, _) => StoreKeeps(tr, n, d, d');
    case AtomicRmwCommit(_, _, _) => StoreKeeps(tr, n, d, d');
    case AtomicLoad(_, _, _) => LoadKeeps(tr, n, d, d');
    case AtomicRmwLoad(_, _, _) => LoadKeeps(tr, n, d, d');
    case Access(_, _, _) => AccessKeeps(tr, n, d, d');
    case _ => FenceKeeps(tr, n, d, d');
  }

  /** The clocks are exact throughout every run. */
  lemma {:induction false} ClocksAreExact(tr: seq<Event>, n: nat)
    requires n <= |tr| && After(tr, n).Ok?
    ensures ClocksHold(tr, n, After(tr, n).d)
  {
    if n == 0 {
      ZeroHolds(tr, 0);
      NoneYet(tr, 0, 1, 0);
      forall x: Loc ensures FreeAt(tr, 0, Start(), x) { assert Frees(tr, 0, x) == iset{}; }
    } else {
      ClocksAreExact(tr, n - 1);
      EventKeeps(tr, n - 1, After(tr, n - 1).d, After(tr, n).d);
    }
  }
}

/**
How the order that the detector decides relates to the C++ standard.  The standard lets a release
store publish through its own release sequence only, and an acquire load take in only what it reads
itself; later stores and earlier loads synchronise through fences alone (sections [intro.races],
[atomics.order] and [atomics.fences] of the standard).  The detector's order contains that order, so
every report is a race in the sense of the standard; where no relaxed store follows a release store
and no relaxed load precedes an acquire load of the same thread, the two orders are the same.
*/
module StandardOrder {
  import opened VectorClocks
  import opened RaceDetector
  import opened HappensBeforeOrder
  import opened RaceTheorems

  // ---- the order of the standard --------------------------------------------------------------

  predicate IsFence(e: Event)
  {
    e.AtomicThreadFence?
  }

  /** Only a fence works through the stores after it, or the loads before it. */
  predicate StdCarries(tr: seq<Event>, i: nat, k: nat, l: nat, j: nat)
    requires j < |tr|
  {
    Carries(tr, i, k, l, j) && (IsFence(tr[i]) || k == i) && (IsFence(tr[j]) || l == j)
  }

  ghost predicate StdSync(tr: seq<Event>, i: nat, j: nat)
    requires j < |tr|
  {
    i < j && IsRelease(tr[i]) && IsAcquire(tr[j]) && exists k: nat, l: nat :: StdCarries(tr, i, k, l, j)
  }

  /** Threads, wake-ups and the reuse of memory order events as in the simulator. */
  ghost predicate StdEdge(tr: seq<Event>, i: nat, j: nat)
    requires j < |tr|
  {
    i < j &&
    (|| tr[i].t == tr[j].t
     || (tr[j].Spawn? && tr[i].t == tr[j].parent)
     || (tr[j].Wake? && tr[i].t == tr[j].waker && IsRelease(tr[i]))
     || (tr[j].Malloc? && LastFree(tr, tr[j].x, i, j))
     || StdSync(tr, i, j))
  }

  ghost predicate StdHB(tr: seq<Event>, i: nat, j: nat)
    requires j < |tr|
  {
    i == j || exists k: nat :: StdEdge(tr, k, j) && StdHB(tr, i, k)
  }

  ghost predicate StdRaces(tr: seq<Event>, i: nat, n: nat)
    requires n < |tr| && tr[n].Access?
  {
    Since(tr, tr[n].x, i, n) && tr[i].t != tr[n].t && !(tr[i].kind.Read? && tr[n].kind.Read?) && !StdHB(tr, i, n)
  }

  // ---- the detector's order contains it ----------------------------------------------------------

  lemma StdEdgeIsEdge(tr: seq<Event>, i: nat, j: nat)
    requires j < |tr| && StdEdge(tr, i, j)
    ensures Edge(tr, i, j)
  {
    if StdSync(tr, i, j) {
      var k: nat, l: nat :| StdCarries(tr, i, k, l, j);
      assert Carries(tr, i, k, l, j);
    }
  }

  lemma {:induction false} StandardIsIncluded(tr: seq<Event>, i: nat, j: nat)
    requires j < |tr| && StdHB(tr, i, j)
    ensures HB(tr, i, j)
    decreases j
  {
    if i != j {
      var k: nat :| StdEdge(tr, k, j) && StdHB(tr, i, k);
      StdEdgeIsEdge(tr, k, j);
      StandardIsIncluded(tr, i, k);
    }
  }

  /** No false alarms: a report is a race in the sense of the standard. */
  lemma ReportIsStandardRace(tr: seq<Event>, n: nat) returns (i: nat)
    requires n < |tr| && After(tr, n).Ok? && tr[n].Access? && After(tr, n + 1).Race?
    ensures StdRaces(tr, i, n)
  {
    ReportIffRace(tr, n);
    i :| Races(tr, i, n);
    if StdHB(tr, i, n) { StandardIsIncluded(tr, i, n); }
  }

  // ---- where the two agree ------------------------------------------------------------------------------

  /** In its thread, no relaxed store follows a release store and no relaxed load precedes an acquire load. */
  predicate Tidy(tr: seq<Event>)
  {
    && (forall i, k :: 0 <= i < k < |tr| ==> TidyPut(tr[i], tr[k]))
    && (forall l, j :: 0 <= l < j < |tr| ==> TidyGet(tr[l], tr[j]))
  }

  predicate TidyPut(a: Event, b: Event)
  {
    a.t == b.t && IsRelease(a) && !IsFence(a) && (b.AtomicStore? || b.AtomicRmwCommit?) ==> IsRelease(b)
  }

  predicate TidyGet(a: Event, b: Event)
  {
    a.t == b.t && Reads(a) && IsAcquire(b) && !IsFence(b) ==> IsAcquire(a)
  }

  lemma ThreadOrder(tr: seq<Event>, i: nat, j: nat)
    requires i <= j < |tr| && tr[i].t == tr[j].t
    ensures StdHB(tr, i, j)
  {
    if i < j { assert StdEdge(tr, i, j) && StdHB(tr, i, i); }
  }

  lemma {:induction false} StdTransitive(tr: seq<Event>, i: nat, j: nat, k: nat)
    requires k < |tr| && j < |tr| && StdHB(tr, i, j) && StdHB(tr, j, k)
    ensures StdHB(tr, i, k)
    decreases k
  {
    if j != k {
      var m: nat :| StdEdge(tr, m, k) && StdHB(tr, j, m);
      StdTransitive(tr, i, j, m);
    }
  }

  lemma TidySync(tr: seq<Event>, i: nat, j: nat)
    requires j < |tr| && Tidy(tr) && SynchronizesWith(tr, i, j)
    ensures StdHB(tr, i, j)
  {
    var k: nat, l: nat :| Carries(tr, i, k, l, j);
    var a := if IsFence(tr[i]) then i else k;
    var b := if IsFence(tr[j]) then j else l;
    assert a != i ==> TidyPut(tr[i], tr[a]);
    assert b != j ==> TidyGet(tr[b], tr[j]);
    assert StdCarries(tr, a, k, l, b);
    assert StdEdge(tr, a, b) && StdHB(tr, a, a);
    ThreadOrder(tr, i, a);
    ThreadOrder(tr, b, j);
    StdTransitive(tr, i, a, b);
    StdTransitive(tr, i, b, j);
  }

  lemma {:induction false} TidyOrder(tr: seq<Event>, i: nat, j: nat)
    requires j < |tr| && Tidy(tr)
    ensures HB(tr, i, j) <==> StdHB(tr, i, j)
    decreases j
  {
    if StdHB(tr, i, j) { StandardIsIncluded(tr, i, j); }
    if HB(tr, i, j) && i != j {
      var k: nat :| Edge(tr, k, j) && HB(tr, i, k);
      TidyOrder(tr, i, k);
      if SynchronizesWith(tr, k, j) { TidySync(tr, k, j); } else { assert StdEdge(tr, k, j) && StdHB(tr, k, k); }
      StdTransitive(tr, i, k, j);
    }
  }

  /** On tidy runs the detector decides races in the sense of the standard. */
  lemma TidyReportIffRace(tr: seq<Event>, n: nat)
    requires n < |tr| && Tidy(tr) && After(tr, n).Ok? && tr[n].Access? && !After(tr, n + 1).Panic?
    ensures After(tr, n + 1).Race? <==> exists i: nat :: StdRaces(tr, i, n)
  {
    ReportIffRace(tr, n);
    forall i: nat | i < n ensures Races(tr, i, n) <==> StdRaces(tr, i, n) { TidyOrder(tr, i, n); }
  }

  // ---- where they differ ------------------------------------------------------------------------------

  /** Thread 1 writes variable 0 and makes a release store; thread 2 makes an acquire load and writes the variable. */
  function Exchange(put: Event, get: Event): seq<Event>
  {
    [AtomicInit(1, 1), AtomicInit(1, 2), Spawn(1, 2), Access(1, 0, Init), AtomicStore(1, 1, Release), put, get,
     AtomicLoad(2, 2, Acquire), Access(2, 0, Write)]
  }

  /** The load reads a relaxed store that follows the release store. */
  predicate LatePut(put: Event, get: Event)
  {
    put.AtomicStore? && put.t == 1 && put.x == 2 && put.mo.Relaxed? && get.AtomicDebugLoad? && get.t == 2 && get.x == 2
  }

  /** A relaxed load that precedes the acquire load reads the release store. */
  predicate EarlyGet(put: Event, get: Event)
  {
    put.AtomicDebugLoad? && put.t == 1 && put.x == 2 && get.AtomicLoad? && get.t == 2 && get.x == 1 && get.mo.Relaxed?
  }

  /** For the standard, only the spawn leads from thread 1 to thread 2. */
  lemma {:induction false} NotReached(put: Event, get: Event, j: nat)
    requires (LatePut(put, get) || EarlyGet(put, get)) && j < 9 && StdHB(Exchange(put, get), 3, j)
    ensures Exchange(put, get)[j].t == 1
  {
    var tr := Exchange(put, get);
    if j != 3 {
      var k: nat :| StdEdge(tr, k, j) && StdHB(tr, 3, k);
      NotReached(put, get, k);
      StandardIsIncluded(tr, 3, k);
      Forward(tr, 3, k);
    }
  }

  lemma Synchronised(put: Event, get: Event)
    requires LatePut(put, get) || EarlyGet(put, get)
    ensures HB(Exchange(put, get), 3, 8)
  {
    var tr := Exchange(put, get);
    if LatePut(put, get) { assert Carries(tr, 4, 5, 7, 7); } else { assert Carries(tr, 4, 4, 6, 7); }
    assert SynchronizesWith(tr, 4, 7);
    assert Edge(tr, 3, 4) && HB(tr, 3, 3) && HB(tr, 3, 4);
    assert Edge(tr, 4, 7) && HB(tr, 3, 7);
    assert Edge(tr, 7, 8);
  }

  /** What the detector knows after n events of an exchange. */
  predicate Ready(d: Detector, n: nat)
  {
    && |d.threads| == (if n < 3 then 1 else 2)
    && (n >= 1 ==> Live(d, 1)) && (n >= 2 ==> Live(d, 2)) && (n >= 4 <==> 0 in d.vars)
  }

  lemma ReadyStep(put: Event, get: Event, n: nat, d: Detector)
    requires (LatePut(put, get) || EarlyGet(put, get)) && n < 8 && Ready(d, n)
    ensures Apply(d, Exchange(put, get)[n]).Ok? && Ready(Apply(d, Exchange(put, get)[n]).d, n + 1)
  {
    if n >= 4 { AtomicStep(d, Exchange(put, get)[n]); }
  }

  lemma AtomicStep(d: Detector, e: Event)
    requires Ready(d, 4) && 1 <= e.t <= 2 && (e.AtomicStore? || e.AtomicLoad? || e.AtomicDebugLoad?) && 1 <= e.x <= 2
    requires (e.AtomicStore? ==> IsStoreOrder(e.mo)) && (e.AtomicLoad? ==> IsLoadOrder(e.mo))
    ensures Apply(d, e).Ok? && Ready(Apply(d, e).d, 4)
  {}

  lemma {:induction false} ReadyAt(put: Event, get: Event, n: nat)
    requires (LatePut(put, get) || EarlyGet(put, get)) && n <= 8
    ensures After(Exchange(put, get), n).Ok? && Ready(After(Exchange(put, get), n).d, n)
  {
    if n > 0 {
      ReadyAt(put, get, n - 1);
      ReadyStep(put, get, n - 1, After(Exchange(put, get), n - 1).d);
    }
  }

  /** An access of a known thread to a known variable is logged, unless it races. */
  lemma LoggedUnlessRace(tr: seq<Event>, n: nat)
    requires n < |tr| && After(tr, n).Ok? && tr[n].Access? && !tr[n].kind.Init?
    requires Exists(After(tr, n).d, tr[n].t) && tr[n].x in After(tr, n).d.vars && forall i: nat :: !Races(tr, i, n)
    ensures After(tr, n + 1).Ok?
  {
    ReportIffRace(tr, n);
  }

  lemma NoRace(put: Event, get: Event, i: nat)
    requires LatePut(put, get) || EarlyGet(put, get)
    ensures !Races(Exchange(put, get), i, 8)
  {
    if Since(Exchange(put, get), 0, i, 8) {
      assert i == 3;
      Synchronised(put, get);
    }
  }

  lemma SilentExchange(put: Event, get: Event, n: nat)
    requires (LatePut(put, get) || EarlyGet(put, get)) && n == |Exchange(put, get)| - 1
    ensures After(Exchange(put, get), n + 1).Ok?
  {
    ReadyAt(put, get, n);
    forall i: nat ensures !Races(Exchange(put, get), i, n) { NoRace(put, get, i); }
    LoggedUnlessRace(Exchange(put, get), n);
  }

  lemma StandardRace(put: Event, get: Event)
    requires LatePut(put, get) || EarlyGet(put, get)
    ensures StdRaces(Exchange(put, get), 3, 8)
  {
    if StdHB(Exchange(put, get), 3, 8) { NotReached(put, get, 8); }
  }

  /** Each half of the condition is needed: runs without a report in which the writes of variable 0 race. */
  lemma MissedRaces(put: Event, get: Event) returns (tr: seq<Event>)
    requires LatePut(put, get) || EarlyGet(put, get)
    ensures tr == Exchange(put, get) && After(tr, |tr|).Ok? && StdRaces(tr, 3, |tr| - 1)
  {
    tr := Exchange(put, get);
    SilentExchange(put, get, |tr| - 1);
    StandardRace(put, get);
  }
}

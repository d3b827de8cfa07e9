/**
The detector keeps one write and one read per thread for each variable.  That is
enough: an access is reported exactly when it conflicts with some earlier access of
another thread, made since the variable was initialised, that does not happen before it.
*/
module RaceTheorems {
  import opened VectorClocks
  import opened RaceDetector
  import opened HappensBeforeOrder
  import opened ClockProof

  predicate Touches(e: Event, x: Loc)
  {
    e.Access? && e.x == x
  }

  predicate Starts(e: Event, x: Loc)
  {
    Touches(e, x) && e.kind.Init?
  }

  /** An access to x before n in the life of x that is current at n. */
  predicate Since(tr: seq<Event>, x: Loc, i: nat, n: nat)
    requires n <= |tr|
  {
    i < n && Touches(tr[i], x) && forall m :: i < m < n ==> !Starts(tr[m], x)
  }

  /** The access n races with the earlier access i. */
  ghost predicate Races(tr: seq<Event>, i: nat, n: nat)
    requires n < |tr| && tr[n].Access?
  {
    Since(tr, tr[n].x, i, n) && tr[i].t != tr[n].t && !(tr[i].kind.Read? && tr[n].kind.Read?) && !HB(tr, i, n)
  }

  // ---- what the log of a variable holds ---------------------------------------------------------

  datatype Slot = WriteSlot | ReadSlot(u: Tid)

  predicate Fills(e: Event, g: Slot)
  {
    e.Access? && (if g.WriteSlot? then IsWrite(e.kind) else e.kind.Read? && e.t == g.u)
  }

  function At(v: Var, g: Slot): Option<OldAccess>
    requires g.ReadSlot? ==> 1 <= g.u <= MAX_THREADS
  {
    if g.WriteSlot? then v.lastWrite else v.lastRead[g.u]
  }

  /** a is the record of event i, the last one since the initialisation that fills the slot. */
  predicate Latest(tr: seq<Event>, n: nat, x: Loc, g: Slot, a: OldAccess, i: nat)
    requires n <= |tr|
  {
    && Since(tr, x, i, n) && Fills(tr[i], g) && a == OldAccess(tr[i].kind, tr[i].t, Epoch(tr, i))
    && forall j :: i < j < n && Touches(tr[j], x) ==> !Fills(tr[j], g)
  }

  ghost predicate SlotHolds(tr: seq<Event>, n: nat, x: Loc, g: Slot, a: Option<OldAccess>)
    requires n <= |tr|
  {
    match a
    case None => forall i :: 0 <= i < n && Since(tr, x, i, n) ==> !Fills(tr[i], g)
    case Some(o) => exists i: nat :: Latest(tr, n, x, g, o, i)
  }

  ghost predicate VarHolds(tr: seq<Event>, n: nat, x: Loc, v: Var)
    requires n <= |tr|
  {
    forall g: Slot :: (g.ReadSlot? ==> 1 <= g.u <= MAX_THREADS) ==> SlotHolds(tr, n, x, g, At(v, g))
  }

  ghost predicate LogsHold(tr: seq<Event>, n: nat, d: Detector)
    requires n <= |tr|
  {
    && (forall x :: x in d.vars ==> VarHolds(tr, n, x, d.vars[x]))
    && (forall i :: 0 <= i < n && tr[i].Access? ==> tr[i].x in d.vars)
  }

  /** No access so far races with an earlier one. */
  ghost predicate Ordered(tr: seq<Event>, n: nat)
    requires n <= |tr|
  {
    forall i: nat, j: nat :: j < n && tr[j].Access? ==> !Races(tr, i, j)
  }

  // ---- the check is exact --------------------------------------------------------------------------

  /** The comparison of epochs decides happens-before. */
  lemma EpochsDecide(tr: seq<Event>, n: nat, d: Detector, i: nat)
    requires n < |tr| && ClocksHold(tr, n, d) && Exists(d, tr[n].t) && tr[n].Access?
    requires i < n && tr[i].Access? && tr[i].t != tr[n].t
    ensures HappensBefore(OldAccess(tr[i].kind, tr[i].t, Epoch(tr, i)), Tick(d, tr[n].t).current) <==> HB(tr, i, n)
  {
    assert ThreadAt(tr, n, d, tr[n].t);
    ClockDecides(tr, n, d.threads[tr[n].t - 1].current, i);
  }

  lemma ClockDecides(tr: seq<Event>, n: nat, c: Clock, i: nat)
    requires n < |tr| && Named(tr, n, MAX_THREADS) && 1 <= tr[n].t <= MAX_THREADS && tr[n].Access? && i < n && tr[i].Access?
    requires Holds(tr, n, c, Reaches(tr, n, tr[n].t)) && c[tr[n].t - 1] == Count(tr, n, tr[n].t)
    ensures Ticked(c, tr[n].t)[tr[i].t - 1] >= Epoch(tr, i) <==> HB(tr, i, n)
  {
    assert Named(tr, n + 1, MAX_THREADS);
    PlainHolds(tr, n, c);
    HoldsSays(tr, n + 1, Ticked(c, tr[n].t), Before(tr, n), i);
  }

  lemma HoldsSays(tr: seq<Event>, n: nat, c: Clock, s: iset<nat>, i: nat)
    requires n <= |tr| && Named(tr, n, MAX_THREADS) && Holds(tr, n, c, s) && i < n && Ticks(tr[i])
    ensures c[tr[i].t - 1] >= Epoch(tr, i) <==> i in s
  {
    assert Knows(c, tr, i) <==> i in s;
  }

  /** An access that races is still found through the last one in its slot. */
  lemma LastSuffices(tr: seq<Event>, n: nat, i: nat, g: Slot, o: OldAccess, j: nat)
    requires n < |tr| && tr[n].Access? && Ordered(tr, n) && Races(tr, i, n) && Fills(tr[i], g)
    requires Latest(tr, n, tr[n].x, g, o, j)
    ensures tr[j].t != tr[n].t && !HB(tr, j, n)
  {
    assert i <= j;
    if i < j {
      assert Since(tr, tr[j].x, i, j);
      assert !Races(tr, i, j);
      assert HB(tr, i, j) by { if tr[i].t == tr[j].t { assert Edge(tr, i, j) && HB(tr, i, i); } }
    }
    if HB(tr, j, n) { Transitive(tr, i, j, n); assert false; }
    assert Edge(tr, j, n) || tr[j].t != tr[n].t;
  }

  lemma Finds(tr: seq<Event>, n: nat, d: Detector, i: nat)
    requires n < |tr| && ClocksHold(tr, n, d) && LogsHold(tr, n, d) && Ordered(tr, n)
    requires tr[n].Access? && Exists(d, tr[n].t) && Races(tr, i, n)
    ensures tr[n].x in d.vars && !RaceFree(d.vars[tr[n].x], tr[n].t, Tick(d, tr[n].t).current, tr[n].kind, |d.threads|)
  {
    var x := tr[n].x;
    var v, g := d.vars[x], if IsWrite(tr[i].kind) then WriteSlot else ReadSlot(tr[i].t);
    assert VarHolds(tr, n, x, v);
    assert 1 <= tr[i].t <= |d.threads|;
    assert SlotHolds(tr, n, x, g, At(v, g));
    assert At(v, g).Some?;
    var j: nat :| Latest(tr, n, x, g, At(v, g).value, j);
    LastSuffices(tr, n, i, g, At(v, g).value, j);
    EpochsDecide(tr, n, d, j);
  }

  lemma Reports(tr: seq<Event>, n: nat, d: Detector) returns (i: nat)
    requires n < |tr| && ClocksHold(tr, n, d) && LogsHold(tr, n, d)
    requires tr[n].Access? && Exists(d, tr[n].t) && tr[n].x in d.vars
    requires !RaceFree(d.vars[tr[n].x], tr[n].t, Tick(d, tr[n].t).current, tr[n].kind, |d.threads|)
    ensures Races(tr, i, n)
  {
    var x, t, c := tr[n].x, tr[n].t, Tick(d, tr[n].t).current;
    var v := d.vars[x];
    assert VarHolds(tr, n, x, v);
    var g := WriteSlot;
    if !Unordered(v.lastWrite, t, c) {
      var u :| 1 <= u <= |d.threads| && u != t && v.lastRead[u].Some? && !HappensBefore(v.lastRead[u].value, c);
      g := ReadSlot(u);
    }
    assert SlotHolds(tr, n, x, g, At(v, g));
    i :| Latest(tr, n, x, g, At(v, g).value, i);
    EpochsDecide(tr, n, d, i);
  }

  // ---- the logs are kept ------------------------------------------------------------------------------

  lemma OtherLog(tr: seq<Event>, n: nat, x: Loc, v: Var)
    requires n < |tr| && VarHolds(tr, n, x, v) && !Touches(tr[n], x)
    ensures VarHolds(tr, n + 1, x, v)
  {
    forall g: Slot | g.ReadSlot? ==> 1 <= g.u <= MAX_THREADS ensures SlotHolds(tr, n + 1, x, g, At(v, g)) {
      assert SlotHolds(tr, n, x, g, At(v, g));
      SlotFrame(tr, n, x, g, At(v, g));
    }
  }

  lemma SlotFrame(tr: seq<Event>, n: nat, x: Loc, g: Slot, a: Option<OldAccess>)
    requires n < |tr| && SlotHolds(tr, n, x, g, a) && !Starts(tr[n], x) && (Touches(tr[n], x) ==> !Fills(tr[n], g))
    ensures SlotHolds(tr, n + 1, x, g, a)
  {
    forall i: nat ensures i < n ==> (Since(tr, x, i, n + 1) <==> Since(tr, x, i, n)) {
      if i < n && Since(tr, x, i, n + 1) { assert forall m :: i < m < n ==> !Starts(tr[m], x); }
    }
    if a.Some? {
      var i: nat :| Latest(tr, n, x, g, a.value, i);
      assert Latest(tr, n + 1, x, g, a.value, i);
    }
  }

  /** The access is logged. */
  lemma SlotLogged(tr: seq<Event>, n: nat, x: Loc, g: Slot)
    requires n < |tr| && Touches(tr[n], x) && Fills(tr[n], g)
    ensures SlotHolds(tr, n + 1, x, g, Some(OldAccess(tr[n].kind, tr[n].t, Epoch(tr, n))))
  {
    assert Latest(tr, n + 1, x, g, OldAccess(tr[n].kind, tr[n].t, Epoch(tr, n)), n);
  }

  lemma OwnLog(tr: seq<Event>, n: nat, v: Var)
    requires n < |tr| && tr[n].Access? && !tr[n].kind.Init? && 1 <= tr[n].t <= MAX_THREADS && VarHolds(tr, n, tr[n].x, v)
    ensures VarHolds(tr, n + 1, tr[n].x, Log(v, OldAccess(tr[n].kind, tr[n].t, Epoch(tr, n))))
  {
    var x, v' := tr[n].x, Log(v, OldAccess(tr[n].kind, tr[n].t, Epoch(tr, n)));
    forall g: Slot | g.ReadSlot? ==> 1 <= g.u <= MAX_THREADS ensures SlotHolds(tr, n + 1, x, g, At(v', g)) {
      assert SlotHolds(tr, n, x, g, At(v, g));
      if Fills(tr[n], g) { SlotLogged(tr, n, x, g); } else { SlotFrame(tr, n, x, g, At(v, g)); }
    }
  }

  lemma FirstLog(tr: seq<Event>, n: nat)
    requires n < |tr| && tr[n].Access? && tr[n].kind.Init? && 1 <= tr[n].t <= MAX_THREADS
    ensures VarHolds(tr, n + 1, tr[n].x, Log(FreshVar(), OldAccess(tr[n].kind, tr[n].t, Epoch(tr, n))))
  {
    var x, v' := tr[n].x, Log(FreshVar(), OldAccess(tr[n].kind, tr[n].t, Epoch(tr, n)));
    forall g: Slot | g.ReadSlot? ==> 1 <= g.u <= MAX_THREADS ensures SlotHolds(tr, n + 1, x, g, At(v', g)) {
      if g.WriteSlot? { SlotLogged(tr, n, x, g); } else { assert Starts(tr[n], x); }
    }
  }

  lemma TouchedLog(tr: seq<Event>, n: nat, d: Detector, d': Detector)
    requires n < |tr| && ClocksHold(tr, n, d) && LogsHold(tr, n, d) && Apply(d, tr[n]) == Ok(d') && tr[n].Access?
    ensures tr[n].x in d'.vars && VarHolds(tr, n + 1, tr[n].x, d'.vars[tr[n].x])
  {
    var e, x := tr[n], tr[n].x;
    assert ThreadAt(tr, n, d, e.t);
    assert Tick(d, e.t).epoch == Epoch(tr, n);
    if e.kind.Init? {
      FirstLog(tr, n);
    } else {
      var v: Var := if e.kind.Destroy? then d.vars[x].(dtor := true) else d.vars[x];
      SameSlots(tr, n, x, d.vars[x], v);
      OwnLog(tr, n, v);
    }
  }

  /** An event leaves the variables it does not access alone. */
  lemma OtherVars(d: Detector, e: Event, d': Detector, x: Loc)
    requires Apply(d, e) == Ok(d') && !Touches(e, x)
    ensures (x in d'.vars <==> x in d.vars) && (x in d.vars ==> d'.vars[x] == d.vars[x])
  {}

  lemma LogsKeep(tr: seq<Event>, n: nat, d: Detector, d': Detector)
    requires n < |tr| && ClocksHold(tr, n, d) && LogsHold(tr, n, d) && Apply(d, tr[n]) == Ok(d')
    ensures LogsHold(tr, n + 1, d')
  {
    if tr[n].Access? { TouchedLog(tr, n, d, d'); }
    forall x | x in d'.vars ensures VarHolds(tr, n + 1, x, d'.vars[x]) {
      if !Touches(tr[n], x) {
        OtherVars(d, tr[n], d', x);
        OtherLog(tr, n, x, d.vars[x]);
      }
    }
    forall i | 0 <= i < n + 1 && tr[i].Access? ensures tr[i].x in d'.vars {
      if !Touches(tr[n], tr[i].x) { OtherVars(d, tr[n], d', tr[i].x); }
    }
  }

  lemma SameSlots(tr: seq<Event>, n: nat, x: Loc, v: Var, w: Var)
    requires n <= |tr| && VarHolds(tr, n, x, v) && w.lastRead == v.lastRead && w.lastWrite == v.lastWrite
    ensures VarHolds(tr, n, x, w)
  {
    forall g: Slot | g.ReadSlot? ==> 1 <= g.u <= MAX_THREADS ensures SlotHolds(tr, n, x, g, At(w, g)) {
      assert SlotHolds(tr, n, x, g, At(v, g));
    }
  }

  lemma OrderKept(tr: seq<Event>, n: nat, d: Detector, d': Detector)
    requires n < |tr| && ClocksHold(tr, n, d) && LogsHold(tr, n, d) && Ordered(tr, n) && Apply(d, tr[n]) == Ok(d')
    ensures Ordered(tr, n + 1)
  {
    forall i: nat, j: nat | j < n + 1 && tr[j].Access? ensures !Races(tr, i, j) {
      if j == n && Races(tr, i, n) { Finds(tr, n, d, i); assert false; }
    }
  }

  // ---- over a whole run -----------------------------------------------------------------------------

  lemma {:induction false} RunHolds(tr: seq<Event>, n: nat)
    requires n <= |tr| && After(tr, n).Ok?
    ensures ClocksHold(tr, n, After(tr, n).d) && LogsHold(tr, n, After(tr, n).d) && Ordered(tr, n)
  {
    ClocksAreExact(tr, n);
    if n > 0 {
      RunHolds(tr, n - 1);
      LogsKeep(tr, n - 1, After(tr, n - 1).d, After(tr, n).d);
      OrderKept(tr, n - 1, After(tr, n - 1).d, After(tr, n).d);
    }
  }

  /** At any point of a run, an access that the simulator admits is reported if and only if it races. */
  lemma ReportIffRace(tr: seq<Event>, n: nat)
    requires n < |tr| && After(tr, n).Ok? && tr[n].Access? && !After(tr, n + 1).Panic?
    ensures After(tr, n + 1).Race? <==> exists i: nat :: Races(tr, i, n)
  {
    RunHolds(tr, n);
    var d := After(tr, n).d;
    if After(tr, n + 1).Race? { var i := Reports(tr, n, d); }
    if i: nat :| Races(tr, i, n) { Finds(tr, n, d, i); }
  }

  /** A run that ends without a report has no race anywhere. */
  lemma SilentRunsAreRaceFree(tr: seq<Event>, i: nat, j: nat)
    requires After(tr, |tr|).Ok? && j < |tr| && tr[j].Access?
    ensures !Races(tr, i, j)
  {
    RunHolds(tr, |tr|);
  }
}

/**
SeqCstMemoryModel as it is used by the simulator: maps and thread clocks updated in
place.  Each method does to the fields what the event does to the detector.
*/
module MemoryModel {
  import opened VectorClocks
  import opened RaceDetector

  datatype Verdict = Fine | Raced(a: OldAccess) | Panicked

  class SeqCstMemoryModel {
    var threads: seq<ThreadClock>
    var atomics: map<Loc, AtomicVar>
    var vars: map<Loc, Var>
    var frees: map<Loc, Clock>

    ghost function Value(): Detector
      reads this
    {
      Detector(threads, atomics, vars, frees)
    }

    constructor ()
      ensures Value() == Start()
    {
      threads, atomics, vars, frees := [NewThread()], map[], map[], map[];
    }

    predicate Has(t: Tid)
      reads this
    {
      1 <= t <= |threads| <= MAX_THREADS
    }

    method TickThread(t: Tid)
      requires Has(t)
      modifies this`threads
      ensures threads == old(threads)[t - 1 := Tick(old(Value()), t)]
    {
      var c := threads[t - 1];
      threads := threads[t - 1 := c.(current := Ticked(c.current, t), epoch := c.epoch + 1)];
    }

    method FenceAcquire(t: Tid)
      requires Has(t)
      modifies this`threads
      ensures threads == old(threads)[t - 1 := Fenced(old(threads)[t - 1], |old(threads)|, true, false)]
    {
      var c := threads[t - 1];
      threads := threads[t - 1 := c.(current := Joined(c.current, c.acquire, |threads|))];
    }

    method FenceRelease(t: Tid)
      requires Has(t)
      modifies this`threads
      ensures threads == old(threads)[t - 1 := Fenced(old(threads)[t - 1], |old(threads)|, false, true)]
    {
      var c := threads[t - 1];
      threads := threads[t - 1 := c.(release := Assigned(c.release, c.current, |threads|))];
    }

    /** Create the thread, then Spawn. */
    method SpawnChild(parent: Tid, t: Tid) returns (v: Verdict)
      modifies this`threads
      ensures v == Fine <==> Apply(old(Value()), Spawn(parent, t)).Ok?
      ensures if v == Fine then Apply(old(Value()), Spawn(parent, t)) == Ok(Value()) else v == Panicked && Value() == old(Value())
    {
      if !Has(parent) || t != |threads| + 1 || t > MAX_THREADS { return Panicked; }
      threads := threads + [NewThread()];
      var c := threads[t - 1];
      threads := threads[t - 1 := c.(current := Assigned(c.current, threads[parent - 1].current, |threads|))];
      TickThread(t);
      v := Fine;
    }

    method WakeWaiter(waker: Tid, t: Tid) returns (v: Verdict)
      modifies this`threads
      ensures v == Fine <==> Apply(old(Value()), Wake(waker, t)).Ok?
      ensures if v == Fine then Apply(old(Value()), Wake(waker, t)) == Ok(Value()) else v == Panicked && Value() == old(Value())
    {
      if !Has(waker) || !Has(t) { return Panicked; }
      var c := threads[t - 1];
      threads := threads[t - 1 := c.(current := Joined(c.current, threads[waker - 1].release, |threads|))];
      TickThread(t);
      v := Fine;
    }

    method LoadAtomic(e: Event) returns (v: Verdict)
      requires e.AtomicLoad? || e.AtomicRmwLoad?
      modifies this`threads
      ensures v == Fine <==> Apply(old(Value()), e).Ok?
      ensures if v == Fine then Apply(old(Value()), e) == Ok(Value()) else v == Panicked
    {
      if !Has(e.t) { return Panicked; }
      TickThread(e.t);
      if e.AtomicLoad? && !IsLoadOrder(e.mo) { return Panicked; }
      if e.x !in atomics || atomics[e.x].dtor { return Panicked; }
      var c := threads[e.t - 1];
      threads := threads[e.t - 1 := c.(acquire := Joined(c.acquire, atomics[e.x].clock, |threads|))];
      if IsAcquireOrder(e.mo) { FenceAcquire(e.t); }
      v := Fine;
    }

    method StoreAtomic(e: Event) returns (v: Verdict)
      requires e.AtomicStore? || e.AtomicRmwCommit?
      modifies this`threads, this`atomics
      ensures v == Fine <==> Apply(old(Value()), e).Ok?
      ensures if v == Fine then Apply(old(Value()), e) == Ok(Value()) else v == Panicked
    {
      if !Has(e.t) { return Panicked; }
      TickThread(e.t);
      if e.AtomicStore? && !IsStoreOrder(e.mo) { return Panicked; }
      if e.x !in atomics || atomics[e.x].dtor { return Panicked; }
      if IsReleaseOrder(e.mo) { FenceRelease(e.t); }
      var was, rel := atomics[e.x].clock, threads[e.t - 1].release;
      if e.AtomicRmwCommit? {
        atomics := atomics[e.x := AtomicVar(Joined(was, rel, |threads|), false)];
      } else {
        atomics := atomics[e.x := AtomicVar(Assigned(was, rel, |threads|), false)];
      }
      v := Fine;
    }

    /** AtomicInit starts a life of the location without a clock; AtomicDestroy ends it; AtomicDebugLoad only ticks. */
    method TouchAtomic(e: Event) returns (v: Verdict)
      requires e.AtomicInit? || e.AtomicDestroy? || e.AtomicDebugLoad?
      modifies this`threads, this`atomics
      ensures v == Fine <==> Apply(old(Value()), e).Ok?
      ensures if v == Fine then Apply(old(Value()), e) == Ok(Value()) else v == Panicked
    {
      if !Has(e.t) { return Panicked; }
      TickThread(e.t);
      if e.AtomicInit? {
        atomics := atomics[e.x := AtomicVar(Zero(), false)];
        return Fine;
      }
      if e.x !in atomics || atomics[e.x].dtor { return Panicked; }
      if e.AtomicDestroy? { atomics := atomics[e.x := atomics[e.x].(dtor := true)]; }
      v := Fine;
    }

    method Fence(t: Tid, mo: MemoryOrder) returns (v: Verdict)
      modifies this`threads
      ensures v == Fine <==> Apply(old(Value()), AtomicThreadFence(t, mo)).Ok?
      ensures if v == Fine then Apply(old(Value()), AtomicThreadFence(t, mo)) == Ok(Value()) else v == Panicked
    {
      if !Has(t) { return Panicked; }
      TickThread(t);
      match mo {
        case Acquire => FenceAcquire(t);
        case Release => FenceRelease(t);
        case AcqRel => FenceAcquire(t); FenceRelease(t);
        case _ => return Panicked;
      }
      v := Fine;
    }

    /** A location is reused only after its destruction, and then starts afresh. */
    method InitNonAtomicVar(t: Tid, x: Loc) returns (v: Verdict)
      requires Has(t)
      modifies this`vars
      ensures v.Panicked? <==> x in old(vars) && !old(vars)[x].dtor
      ensures v.Raced? <==> x in old(vars) && old(vars)[x].dtor && !RaceFree(old(vars)[x], t, threads[t - 1].current, Init, |threads|)
      ensures v.Raced? ==> !HappensBefore(v.a, threads[t - 1].current)
      ensures v.Fine? ==> vars == old(vars)[x := Log(FreshVar(), OldAccess(Init, t, threads[t - 1].epoch))]
    {
      if x !in vars {
        vars := vars[x := FreshVar()];
      } else {
        if !vars[x].dtor { return Panicked; }
        var race := CheckDataRaces(vars[x], t, threads[t - 1].current, Init, |threads|);
        if race.Some? { return Raced(race.value); }
      }
      vars := vars[x := FreshVar()];
      vars := vars[x := Log(vars[x], OldAccess(Init, t, threads[t - 1].epoch))];
      v := Fine;
    }

    method AccessLiveNonAtomicVar(t: Tid, x: Loc, kind: AccessType) returns (v: Verdict)
      requires Has(t) && !kind.Init?
      modifies this`vars
      ensures v.Panicked? <==> x !in old(vars)
      ensures v.Raced? <==> x in old(vars) && !RaceFree(old(vars)[x], t, threads[t - 1].current, kind, |threads|)
      ensures v.Raced? ==> !HappensBefore(v.a, threads[t - 1].current)
      ensures v.Fine? ==>
                var was := old(vars)[x];
                vars == old(vars)[x := Log(if kind.Destroy? then was.(dtor := true) else was, OldAccess(kind, t, threads[t - 1].epoch))]
    {
      if x !in vars { return Panicked; }
      var race := CheckDataRaces(vars[x], t, threads[t - 1].current, kind, |threads|);
      if race.Some? { return Raced(race.value); }
      if kind.Destroy? { vars := vars[x := vars[x].(dtor := true)]; }
      vars := vars[x := Log(vars[x], OldAccess(kind, t, threads[t - 1].epoch))];
      v := Fine;
    }

    method AccessNonAtomicVar(t: Tid, x: Loc, kind: AccessType) returns (v: Verdict)
      modifies this`threads, this`vars
      ensures v == Fine <==> Apply(old(Value()), Access(t, x, kind)).Ok?
      ensures v.Raced? <==> Apply(old(Value()), Access(t, x, kind)).Race?
      ensures v == Fine ==> Apply(old(Value()), Access(t, x, kind)) == Ok(Value())
      ensures v.Raced? ==> Has(t) && !HappensBefore(v.a, threads[t - 1].current)
    {
      if !Has(t) { return Panicked; }
      TickThread(t);
      if kind.Init? {
        v := InitNonAtomicVar(t, x);
      } else {
        v := AccessLiveNonAtomicVar(t, x, kind);
      }
    }

    method MallocAt(t: Tid, x: Loc) returns (v: Verdict)
      modifies this`threads
      ensures v == Fine <==> Apply(old(Value()), Malloc(t, x)).Ok?
      ensures if v == Fine then Apply(old(Value()), Malloc(t, x)) == Ok(Value()) else v == Panicked && Value() == old(Value())
    {
      if !Has(t) { return Panicked; }
      var c, f := threads[t - 1], if x in frees then frees[x] else Zero();
      threads := threads[t - 1 := c.(current := Joined(c.current, f, |threads|))];
      v := Fine;
    }

    method FreeAt(t: Tid, x: Loc) returns (v: Verdict)
      modifies this`frees
      ensures v == Fine <==> Apply(old(Value()), Free(t, x)).Ok?
      ensures if v == Fine then Apply(old(Value()), Free(t, x)) == Ok(Value()) else v == Panicked && Value() == old(Value())
    {
      if !Has(t) { return Panicked; }
      var f := if x in frees then frees[x] else Zero();
      frees := frees[x := Assigned(f, threads[t - 1].current, |threads|)];
      v := Fine;
    }
  }
}

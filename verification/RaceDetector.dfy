/**
The race detector of the simulator (deps/twist/source/twist/rt/sim/system/sync).
A run is a sequence of events; each event is applied to the clocks of the threads,
the clocks of atomic stores and frees, and the access logs of plain variables.
Epochs are unbounded; values, source locations and statistics are not kept.
*/
module VectorClocks {

  const MAX_THREADS := 16

  type Tid = nat                 // threads are numbered from 1

  type Clock = c: seq<nat> | |c| == MAX_THREADS witness seq(MAX_THREADS, _ => 0)

  function Zero(): (c: Clock)
  {
    seq(MAX_THREADS, _ => 0)
  }

  function Max(a: nat, b: nat): nat
  {
    if a < b then b else a
  }

  function Ticked(c: Clock, t: Tid): (r: Clock)
    requires 1 <= t <= MAX_THREADS
  {
    c[t - 1 := c[t - 1] + 1]
  }

  /** Only the entries of the n threads created so far are touched. */
  function Assigned(c: Clock, d: Clock, n: nat): (r: Clock)
  {
    seq(MAX_THREADS, i requires 0 <= i < MAX_THREADS => if i < n then d[i] else c[i])
  }

  function Joined(c: Clock, d: Clock, n: nat): (r: Clock)
  {
    seq(MAX_THREADS, i requires 0 <= i < MAX_THREADS => if i < n then Max(c[i], d[i]) else c[i])
  }

  /** The clock as it is laid out: loops over the first n entries of a fixed array. */
  class VectorClock {
    const v: array<nat>

    ghost predicate Valid()
    {
      v.Length == MAX_THREADS
    }

    ghost function Value(): (c: Clock)
      reads v
      requires Valid()
    {
      v[..]
    }

    constructor ()
      ensures Valid() && fresh(v) && Value() == Zero()
    {
      v := new nat[MAX_THREADS](_ => 0);
    }

    method Tick(t: Tid) returns (epoch: nat)
      requires Valid() && 1 <= t <= MAX_THREADS
      modifies v
      ensures Value() == Ticked(old(Value()), t) && epoch == Value()[t - 1]
    {
      v[t - 1] := v[t - 1] + 1;
      epoch := v[t - 1];
    }

    method Assign(that: VectorClock, n: nat)
      requires Valid() && that.Valid() && n <= MAX_THREADS
      modifies v
      ensures Value() == Assigned(old(Value()), old(that.Value()), n)
    {
      for i := 0 to n
        invariant forall j :: 0 <= j < MAX_THREADS ==> v[j] == if j < i then old(that.v[j]) else old(v[j])
        invariant that.v != v ==> that.v[..] == old(that.v[..])
      {
        v[i] := that.v[i];
      }
    }

    method Join(with: VectorClock, n: nat)
      requires Valid() && with.Valid() && n <= MAX_THREADS
      modifies v
      ensures Value() == Joined(old(Value()), old(with.Value()), n)
    {
      for i := 0 to n
        invariant forall j :: 0 <= j < MAX_THREADS ==> v[j] == if j < i then Max(old(v[j]), old(with.v[j])) else old(v[j])
        invariant with.v != v ==> with.v[..] == old(with.v[..])
      {
        v[i] := Max(v[i], with.v[i]);
      }
    }
  }
}

module RaceDetector {
  import opened VectorClocks

  type Loc = nat

  datatype Option<+X> = None | Some(value: X)

  datatype MemoryOrder = Relaxed | Consume | Acquire | Release | AcqRel | SeqCst

  predicate IsLoadOrder(mo: MemoryOrder) { mo.Relaxed? || mo.Acquire? || mo.SeqCst? }

  predicate IsStoreOrder(mo: MemoryOrder) { mo.Relaxed? || mo.AcqRel? || mo.Release? || mo.SeqCst? }

  predicate IsAcquireOrder(mo: MemoryOrder) { mo.Acquire? || mo.AcqRel? || mo.SeqCst? }

  predicate IsReleaseOrder(mo: MemoryOrder) { mo.Release? || mo.AcqRel? || mo.SeqCst? }

  datatype AccessType = Init | Read | Write | Destroy

  predicate IsWrite(a: AccessType) { !a.Read? }

  predicate Conflict(a: AccessType, b: AccessType) { IsWrite(a) || IsWrite(b) }

  /** `t` is the thread whose clock moves; the child of a Spawn, the waiter of a Wake. */
  datatype Event =
    | Spawn(parent: Tid, t: Tid)
    | Wake(waker: Tid, t: Tid)
    | AtomicInit(t: Tid, x: Loc)
    | AtomicDestroy(t: Tid, x: Loc)
    | AtomicDebugLoad(t: Tid, x: Loc)
    | AtomicLoad(t: Tid, x: Loc, mo: MemoryOrder)
    | AtomicStore(t: Tid, x: Loc, mo: MemoryOrder)
    | AtomicRmwLoad(t: Tid, x: Loc, mo: MemoryOrder)
    | AtomicRmwCommit(t: Tid, x: Loc, mo: MemoryOrder)
    | AtomicThreadFence(t: Tid, mo: MemoryOrder)
    | Access(t: Tid, x: Loc, kind: AccessType)
    | Malloc(t: Tid, x: Loc)
    | Free(t: Tid, x: Loc)

  datatype ThreadClock = ThreadClock(current: Clock, acquire: Clock, release: Clock, epoch: nat)

  datatype AtomicVar = AtomicVar(clock: Clock, dtor: bool)

  datatype OldAccess = OldAccess(kind: AccessType, thread: Tid, epoch: nat)

  /** `lastRead` is indexed by thread number; entry 0 is never used. */
  datatype NonAtomicVar = NonAtomicVar(lastRead: seq<Option<OldAccess>>, lastWrite: Option<OldAccess>, dtor: bool)

  type Var = v: NonAtomicVar | |v.lastRead| == MAX_THREADS + 1 witness FreshVar()

  function FreshVar(): NonAtomicVar
  {
    NonAtomicVar(seq(MAX_THREADS + 1, _ => None), None, false)
  }

  datatype Detector = Detector(
    threads: seq<ThreadClock>, atomics: map<Loc, AtomicVar>, vars: map<Loc, Var>, frees: map<Loc, Clock>)

  /** Panic: the simulator rejects the event itself. */
  datatype Outcome = Ok(d: Detector) | Race | Panic

  function NewThread(): ThreadClock
  {
    ThreadClock(Zero(), Zero(), Zero(), 0)
  }

  /** Only the main thread exists, and no event has happened. */
  function Start(): Detector
  {
    Detector([NewThread()], map[], map[], map[])
  }

  predicate Exists(d: Detector, t: Tid)
  {
    1 <= t <= |d.threads| <= MAX_THREADS
  }

  function With(d: Detector, t: Tid, c: ThreadClock): Detector
    requires Exists(d, t)
  {
    d.(threads := d.threads[t - 1 := c])
  }

  function Tick(d: Detector, t: Tid): ThreadClock
    requires Exists(d, t)
  {
    var c := d.threads[t - 1];
    c.(current := Ticked(c.current, t), epoch := c.epoch + 1)
  }

  function Fenced(c: ThreadClock, n: nat, acq: bool, rel: bool): ThreadClock
  {
    var a := if acq then c.(current := Joined(c.current, c.acquire, n)) else c;
    if rel then a.(release := Assigned(a.release, a.current, n)) else a
  }

  // ---- atomics -----------------------------------------------------------------------

  predicate Live(d: Detector, x: Loc)
  {
    x in d.atomics && !d.atomics[x].dtor
  }

  function Load(d: Detector, t: Tid, x: Loc, mo: MemoryOrder): Detector
    requires Exists(d, t) && x in d.atomics
  {
    var n, c := |d.threads|, Tick(d, t);
    With(d, t, Fenced(c.(acquire := Joined(c.acquire, d.atomics[x].clock, n)), n, IsAcquireOrder(mo), false))
  }

  function Store(d: Detector, t: Tid, x: Loc, mo: MemoryOrder, rmw: bool): Detector
    requires Exists(d, t) && x in d.atomics
  {
    var n := |d.threads|;
    var c, s := Fenced(Tick(d, t), n, false, IsReleaseOrder(mo)), d.atomics[x].clock;
    With(d, t, c).(atomics := d.atomics[x := AtomicVar(if rmw then Joined(s, c.release, n) else Assigned(s, c.release, n), false)])
  }

  function Sync(d: Detector, e: Event): Outcome
    requires Exists(d, e.t)
  {
    match e
    case AtomicInit(t, x) => Ok(With(d, t, Tick(d, t)).(atomics := d.atomics[x := AtomicVar(Zero(), false)]))
    case AtomicDestroy(t, x) =>
      if Live(d, x) then Ok(With(d, t, Tick(d, t)).(atomics := d.atomics[x := d.atomics[x].(dtor := true)])) else Panic
    case AtomicDebugLoad(t, x) => if Live(d, x) then Ok(With(d, t, Tick(d, t))) else Panic
    case AtomicLoad(t, x, mo) => if IsLoadOrder(mo) && Live(d, x) then Ok(Load(d, t, x, mo)) else Panic
    case AtomicRmwLoad(t, x, mo) => if Live(d, x) then Ok(Load(d, t, x, mo)) else Panic
    case AtomicStore(t, x, mo) => if IsStoreOrder(mo) && Live(d, x) then Ok(Store(d, t, x, mo, false)) else Panic
    case AtomicRmwCommit(t, x, mo) => if Live(d, x) then Ok(Store(d, t, x, mo, true)) else Panic
    case AtomicThreadFence(t, mo) =>
      if mo.Acquire? || mo.Release? || mo.AcqRel? then
        Ok(With(d, t, Fenced(Tick(d, t), |d.threads|, !mo.Release?, !mo.Acquire?)))
      else Panic
    case _ => Panic
  }

  // ---- plain variables ------------------------------------------------------------------

  predicate HappensBefore(a: OldAccess, current: Clock)
  {
    1 <= a.thread <= MAX_THREADS && current[a.thread - 1] >= a.epoch
  }

  /** An old access of another thread that the clock of t does not cover. */
  predicate Unordered(a: Option<OldAccess>, t: Tid, current: Clock)
  {
    a.Some? && a.value.thread != t && !HappensBefore(a.value, current)
  }

  predicate RaceFree(v: Var, t: Tid, current: Clock, kind: AccessType, n: nat)
    requires n <= MAX_THREADS
  {
    && !Unordered(v.lastWrite, t, current)
    && (IsWrite(kind) ==> forall i :: 1 <= i <= n ==> i == t || v.lastRead[i].None? || HappensBefore(v.lastRead[i].value, current))
  }

  /** The loop over the last read of each thread. */
  method CheckDataRaces(v: Var, t: Tid, current: Clock, kind: AccessType, n: nat) returns (race: Option<OldAccess>)
    requires n <= MAX_THREADS
    ensures race.None? <==> RaceFree(v, t, current, kind, n)
    ensures race.Some? ==> !HappensBefore(race.value, current)
    ensures race.Some? ==> race == v.lastWrite || (IsWrite(kind) && exists i :: 1 <= i <= n && i != t && race == v.lastRead[i])
  {
    if v.lastWrite.Some? && v.lastWrite.value.thread != t && !HappensBefore(v.lastWrite.value, current) {
      return v.lastWrite;
    }
    if IsWrite(kind) {
      for i := 1 to n + 1
        invariant forall j :: 1 <= j < i ==> j == t || v.lastRead[j].None? || HappensBefore(v.lastRead[j].value, current)
      {
        if i != t && v.lastRead[i].Some? && !HappensBefore(v.lastRead[i].value, current) {
          return v.lastRead[i];
        }
      }
    }
    return None;
  }

  function Log(v: Var, a: OldAccess): Var
    requires a.thread <= MAX_THREADS
  {
    if a.kind.Read? then v.(lastRead := v.lastRead[a.thread := Some(a)]) else v.(lastWrite := Some(a))
  }

  function AccessVar(d: Detector, t: Tid, x: Loc, kind: AccessType): Outcome
    requires Exists(d, t)
  {
    var c, n := Tick(d, t), |d.threads|;
    var a := OldAccess(kind, t, c.epoch);
    if kind.Init? && x !in d.vars then
      Ok(With(d, t, c).(vars := d.vars[x := Log(FreshVar(), a)]))
    else if x !in d.vars || (kind.Init? && !d.vars[x].dtor) then
      Panic
    else if !RaceFree(d.vars[x], t, c.current, kind, n) then
      Race
    else if kind.Init? then
      Ok(With(d, t, c).(vars := d.vars[x := Log(FreshVar(), a)]))
    else
      var v := d.vars[x];
      Ok(With(d, t, c).(vars := d.vars[x := Log(if kind.Destroy? then v.(dtor := true) else v, a)]))
  }

  // ---- all events -------------------------------------------------------------------------

  function FreeClock(d: Detector, x: Loc): Clock
  {
    if x in d.frees then d.frees[x] else Zero()
  }

  function Apply(d: Detector, e: Event): Outcome
  {
    match e
    case Spawn(parent, t) =>
      if Exists(d, parent) && t == |d.threads| + 1 <= MAX_THREADS then
        var d' := d.(threads := d.threads + [NewThread().(current := Assigned(Zero(), d.threads[parent - 1].current, t))]);
        Ok(With(d', t, Tick(d', t)))
      else Panic
    case Wake(waker, t) =>
      if Exists(d, waker) && Exists(d, t) then
        var c := d.threads[t - 1];
        var d' := With(d, t, c.(current := Joined(c.current, d.threads[waker - 1].release, |d.threads|)));
        Ok(With(d', t, Tick(d', t)))
      else Panic
    case Malloc(t, x) =>
      if Exists(d, t) then
        var c := d.threads[t - 1];
        Ok(With(d, t, c.(current := Joined(c.current, FreeClock(d, x), |d.threads|))))
      else Panic
    case Free(t, x) =>
      if Exists(d, t) then
        Ok(d.(frees := d.frees[x := Assigned(FreeClock(d, x), d.threads[t - 1].current, |d.threads|)]))
      else Panic
    case Access(t, x, kind) => if Exists(d, t) then AccessVar(d, t, x, kind) else Panic
    case _ => if Exists(d, e.t) then Sync(d, e) else Panic
  }

  /** The detector after the first n events of a run; it stops at the first race or panic. */
  function After(tr: seq<Event>, n: nat): Outcome
    requires n <= |tr|
  {
    if n == 0 then Ok(Start())
    else
      match After(tr, n - 1)
      case Ok(d) => Apply(d, tr[n - 1])
      case o => o
  }
}

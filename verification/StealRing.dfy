/**
The work-stealing ring (src/exe/sched/tp/fast/queues/work_stealing_queue.hpp): one
producer, thread 0, and any number of threads that pop and grab; the producer may do
so too.  Every atomic operation, and every load of a slot, is one step.  Positions are
unbounded; the subtraction in Grab wraps at 2^64 as it does in the source.
*/
module StealRing {

  type Task = nat

  datatype Option<+X> = None | Some(value: X)

  const WORD := 0x1_0000_0000_0000_0000

  /** `pushed` and `delivered` are history: the tasks in the order of tail, and the tasks returned, in the order of head. */
  datatype Ring = Ring(head: nat, tail: nat, buffer: seq<Task>, pushed: seq<Task>, delivered: seq<Task>)

  datatype Pc =
    | Idle
      // TryPush
    | PushTail(x: Task)
    | PushHead(x: Task, tl: nat)
    | PushStore(x: Task, tl: nat)
    | PushAdd(x: Task, tl: nat)
    | Pushed(ok: bool)
      // TryPop
    | PopHead
    | PopTail(h: nat)
    | PopRead(h: nat)
    | PopCas(h: nat, x: Task)
      // Grab: the span has room for n
    | GrabTail(n: nat)
    | GrabHead(n: nat, tl: nat)
    | GrabRead(n: nat, h: nat, count: nat, to: nat, out: seq<Task>)
    | GrabCas(n: nat, h: nat, old_: nat, to: nat, out: seq<Task>)
    | Got(tasks: seq<Task>)

  datatype State = State(r: Ring, threads: seq<Pc>)

  function Min(a: nat, b: nat): nat
  {
    if a < b then a else b
  }

  /** Unsigned 64-bit subtraction. */
  function Minus(a: nat, b: nat): nat
  {
    (a - b) % WORD
  }

  ghost predicate Init(s: State)
  {
    && s.r.head == s.r.tail == 0 && 0 < |s.r.buffer| < WORD && s.r.pushed == [] && s.r.delivered == []
    && forall t :: 0 <= t < |s.threads| ==> s.threads[t] == Idle
  }

  function Slot(r: Ring, i: nat): nat
    requires |r.buffer| > 0
  {
    i % |r.buffer|
  }

  // ---- producer --------------------------------------------------------------------------

  predicate PushStep(r: Ring, p: Pc, r': Ring, p': Pc)
    requires |r.buffer| > 0
  {
    match p
    case PushTail(x) => r' == r && p' == PushHead(x, r.tail)
    case PushHead(x, tl) => r' == r && p' == if Minus(tl, r.head) == |r.buffer| then Pushed(false) else PushStore(x, tl)
    case PushStore(x, tl) => r' == r.(buffer := r.buffer[Slot(r, tl) := x]) && p' == PushAdd(x, tl)
    case PushAdd(x, tl) => r' == r.(tail := r.tail + 1, pushed := r.pushed + [x]) && p' == Pushed(true)
    case Pushed(_) => r' == r && p' == Idle
    case _ => false
  }

  // ---- consumers ---------------------------------------------------------------------------

  function Take(r: Ring, to: nat, out: seq<Task>): Ring
  {
    r.(head := to, delivered := r.delivered + out)
  }

  predicate PopStep(r: Ring, p: Pc, r': Ring, p': Pc)
    requires |r.buffer| > 0
  {
    match p
    case PopHead => r' == r && p' == PopTail(r.head)
    case PopTail(h) => r' == r && p' == if r.tail == h then Got([]) else PopRead(h)
    case PopRead(h) => r' == r && p' == PopCas(h, r.buffer[Slot(r, h)])
    case PopCas(h, x) => if r.head == h then r' == Take(r, h + 1, [x]) && p' == Got([x]) else r' == r && p' == PopTail(r.head)
    case _ => false
  }

  /** The tasks that are left of a copy when only the last ones were won. */
  function Won(h: nat, from: nat, to: nat, out: seq<Task>): seq<Task>
  {
    var grabbed := to - from;
    if 0 <= grabbed <= |out| then out[|out| - grabbed..] else []
  }

  predicate GrabStep(r: Ring, p: Pc, r': Ring, p': Pc)
    requires |r.buffer| > 0
  {
    match p
    case GrabTail(n) => r' == r && p' == GrabHead(n, r.tail)
    case GrabHead(n, tl) =>
      var count := Min(n, Minus(tl, r.head));
      r' == r && p' == if count == 0 then Got([]) else GrabRead(n, r.head, count, Min(tl, r.head + count), [])
    case GrabRead(n, h, count, to, out) =>
      r' == r &&
      p' == if |out| < count then GrabRead(n, h, count, to, out + [r.buffer[Slot(r, h + |out|)]]) else GrabCas(n, h, h, to, out)
    case GrabCas(n, h, old_, to, out) =>
      if old_ >= to then
        r' == r && p' == GrabTail(n)
      else if r.head == old_ then
        r' == Take(r, to, Won(h, old_, to, out)) && p' == Got(Won(h, old_, to, out))
      else
        r' == r && p' == GrabCas(n, h, r.head, to, out)
    case Got(_) => r' == r && p' == Idle
    case _ => false
  }

  // ---- the transition system --------------------------------------------------------------------

  ghost predicate Call(t: nat, p: Pc, p': Pc)
  {
    p.Idle? && ((t == 0 && p'.PushTail?) || p' == PopHead || p'.GrabTail?)
  }

  ghost predicate ThreadStep(s: State, t: nat, s': State)
  {
    && t < |s.threads| == |s'.threads| && s'.threads == s.threads[t := s'.threads[t]] && |s.r.buffer| > 0
    && var p, p' := s.threads[t], s'.threads[t];
       (|| (s'.r == s.r && Call(t, p, p'))
        || PushStep(s.r, p, s'.r, p') || PopStep(s.r, p, s'.r, p') || GrabStep(s.r, p, s'.r, p'))
  }

  ghost predicate Next(s: State, s': State)
  {
    exists t :: ThreadStep(s, t, s')
  }

  ghost predicate IsRun(run: seq<State>)
  {
    && |run| > 0 && Init(run[0])
    && forall i :: 0 < i < |run| ==> Next(run[i - 1], run[i])
  }

  // ---- what every step keeps ------------------------------------------------------------------------

  predicate Fresh(r: Ring, i: nat)
    requires |r.buffer| > 0 && i < |r.pushed|
  {
    r.buffer[Slot(r, i)] == r.pushed[i]
  }

  predicate RingInv(r: Ring)
  {
    && 0 < |r.buffer| < WORD
    && r.head <= r.tail == |r.pushed| && r.tail - r.head <= |r.buffer|
    && (forall i {:trigger Fresh(r, i)} :: r.head <= i < r.tail ==> Fresh(r, i))
    && r.delivered == r.pushed[..r.head]
  }

  /** The copy is right wherever head has not passed. */
  predicate CopyOk(r: Ring, h: nat, out: seq<Task>)
  {
    forall j :: 0 <= j < |out| && r.head <= h + j ==> h + j < |r.pushed| && out[j] == r.pushed[h + j]
  }

  predicate PcInv(r: Ring, p: Pc)
    requires RingInv(r)
  {
    match p
    case PushHead(x, tl) => tl == r.tail
    case PushStore(x, tl) => tl == r.tail && r.tail - r.head < |r.buffer|
    case PushAdd(x, tl) => tl == r.tail && r.tail - r.head < |r.buffer| && r.buffer[Slot(r, tl)] == x
    case PopTail(h) => h <= r.head
    case PopRead(h) => h <= r.head && h < r.tail
    case PopCas(h, x) => h <= r.head && h < r.tail && (r.head == h ==> x == r.pushed[h])
    case GrabHead(n, tl) => tl <= r.tail
    case GrabRead(n, h, count, to, out) =>
      h <= r.head && to <= r.tail && |out| <= count <= n && (to > h ==> to == h + count && CopyOk(r, h, out))
    case GrabCas(n, h, old_, to, out) =>
      h <= old_ <= r.head && to <= r.tail && |out| <= n && (to > h ==> to == h + |out| && CopyOk(r, h, out))
    case _ => true
  }

  /** Only thread 0 pushes. */
  predicate Producing(p: Pc)
  {
    p.PushTail? || p.PushHead? || p.PushStore? || p.PushAdd? || p.Pushed?
  }

  /** The producer knows its own tail, also while it grabs. */
  predicate Placed(r: Ring, p: Pc, t: nat)
  {
    if t == 0 then p.GrabHead? ==> p.tl == r.tail else !Producing(p)
  }

  ghost predicate Inv(s: State)
  {
    RingInv(s.r) && forall t {:trigger PcInv(s.r, s.threads[t])} :: 0 <= t < |s.threads| ==> PcInv(s.r, s.threads[t]) && Placed(s.r, s.threads[t], t)
  }

  /** What one thread may do under the eyes of another: t is the producer or not. */
  predicate Env(r: Ring, r': Ring, producer: bool)
  {
    && |r'.buffer| == |r.buffer| && r.head <= r'.head && r.tail <= r'.tail
    && |r.pushed| <= |r'.pushed| && r'.pushed[..|r.pushed|] == r.pushed
    && (producer || (r'.buffer == r.buffer && r'.tail == r.tail))
  }

  lemma Stable(r: Ring, r': Ring, p: Pc, producer: bool)
    requires RingInv(r) && RingInv(r') && PcInv(r, p) && Env(r, r', producer) && !(producer && Producing(p))
    ensures PcInv(r', p)
  {
    assert forall i :: 0 <= i < |r.pushed| ==> r'.pushed[i] == r'.pushed[..|r.pushed|][i];
  }

  lemma {:induction false} ModDistinct(a: nat, b: nat, c: nat)
    requires a < b < a + c
    ensures a % c != b % c
  {
    var q, p := a / c, b / c;
    assert a == q * c + a % c && b == p * c + b % c;
    if p <= q { assert p * c <= q * c; } else { assert p * c >= (q + 1) * c; }
  }

  /** Storing at the tail does not touch a slot that is still to be read. */
  lemma PushKeeps(r: Ring, p: Pc, r': Ring, p': Pc)
    requires RingInv(r) && PcInv(r, p) && PushStep(r, p, r', p')
    ensures RingInv(r') && PcInv(r', p') && Env(r, r', true) && !Producing(p') == p'.Idle?
  {
    forall i | r'.head <= i < r'.tail ensures Fresh(r', i) {
      if i < r.tail {
        assert Fresh(r, i);
        if p.PushStore? { ModDistinct(i, r.tail, |r.buffer|); }
      }
    }
  }

  lemma PopKeeps(r: Ring, p: Pc, r': Ring, p': Pc)
    requires RingInv(r) && PcInv(r, p) && PopStep(r, p, r', p')
    ensures RingInv(r') && PcInv(r', p') && Env(r, r', false) && !Producing(p')
  {
    if p.PopRead? && r.head == p.h { assert Fresh(r, p.h); }
    if p.PopCas? && r.head == p.h { assert r.pushed[..p.h + 1] == r.pushed[..p.h] + [r.pushed[p.h]]; }
    forall i | r'.head <= i < r'.tail ensures Fresh(r', i) { assert Fresh(r, i); }
  }

  /** What a grab has won is the stretch of tasks from the head it moved to the head it set. */
  lemma WonIsStretch(r: Ring, h: nat, to: nat, out: seq<Task>)
    requires h <= r.head < to <= |r.pushed| && to == h + |out| && CopyOk(r, h, out)
    ensures Won(h, r.head, to, out) == r.pushed[r.head..to]
  {
    var k := r.head - h;
    forall j | k <= j < |out| ensures out[j] == r.pushed[h..to][j] { assert out[j] == r.pushed[h + j]; }
    SameSuffix(out, r.pushed[h..to], k);
    assert r.pushed[h..to][k..] == r.pushed[r.head..to];
  }

  lemma SameSuffix(a: seq<Task>, b: seq<Task>, k: nat)
    requires k <= |a| == |b| && forall j :: k <= j < |a| ==> a[j] == b[j]
    ensures a[k..] == b[k..]
  {}

  lemma GrabReadKeeps(r: Ring, p: Pc, r': Ring, p': Pc)
    requires RingInv(r) && PcInv(r, p) && GrabStep(r, p, r', p') && p.GrabRead?
    ensures PcInv(r, p') && !Producing(p')
  {
    if |p.out| < p.count && r.head <= p.h + |p.out| < r.tail { assert Fresh(r, p.h + |p.out|); }
  }

  lemma GrabWinKeeps(r: Ring, p: Pc, r': Ring, p': Pc)
    requires RingInv(r) && PcInv(r, p) && GrabStep(r, p, r', p') && p.GrabCas? && p'.Got?
    ensures RingInv(r') && Env(r, r', false)
  {
    WonIsStretch(r, p.h, p.to, p.out);
    assert r.pushed[..p.to] == r.pushed[..r.head] + r.pushed[r.head..p.to];
    forall i | r'.head <= i < r'.tail ensures Fresh(r', i) { assert Fresh(r, i); }
  }

  lemma GrabKeeps(r: Ring, p: Pc, r': Ring, p': Pc)
    requires RingInv(r) && PcInv(r, p) && GrabStep(r, p, r', p')
    ensures RingInv(r') && PcInv(r', p') && Env(r, r', false) && !Producing(p')
  {
    if p.GrabHead? { MinusSmall(r, p.tl); }
    if p.GrabRead? { GrabReadKeeps(r, p, r', p'); }
    if p.GrabCas? && p'.Got? { GrabWinKeeps(r, p, r', p'); }
  }

  /** The tail was read before the head: the difference is exact unless the head has moved past it. */
  lemma MinusSmall(r: Ring, tl: nat)
    requires RingInv(r) && tl <= r.tail
    ensures tl >= r.head ==> Minus(tl, r.head) == tl - r.head
  {
  }

  lemma StepKeeps(s: State, t: nat, s': State)
    requires Inv(s) && ThreadStep(s, t, s')
    ensures Inv(s')
  {
    var p, p' := s.threads[t], s'.threads[t];
    assert PcInv(s.r, p);
    if PushStep(s.r, p, s'.r, p') { PushKeeps(s.r, p, s'.r, p'); }
    else if PopStep(s.r, p, s'.r, p') { PopKeeps(s.r, p, s'.r, p'); }
    else if GrabStep(s.r, p, s'.r, p') { GrabKeeps(s.r, p, s'.r, p'); }
    forall u | 0 <= u < |s'.threads| ensures PcInv(s'.r, s'.threads[u]) && Placed(s'.r, s'.threads[u], u) {
      assert PcInv(s.r, s.threads[u]);
      if u != t { Stable(s.r, s'.r, s.threads[u], Producing(p)); }
    }
  }

  lemma {:induction false} RunKeeps(run: seq<State>, n: nat)
    requires IsRun(run) && n < |run|
    ensures Inv(run[n])
  {
    if n > 0 {
      RunKeeps(run, n - 1);
      assert Next(run[n - 1], run[n]);
      var t: nat :| ThreadStep(run[n - 1], t, run[n]);
      StepKeeps(run[n - 1], t, run[n]);
    }
  }

  // ---- what a caller sees --------------------------------------------------------------------------

  /** The tasks returned, in the order of head, are a prefix of the tasks pushed. */
  lemma DeliversPrefix(run: seq<State>, n: nat)
    requires IsRun(run) && n < |run|
    ensures run[n].r.head <= run[n].r.tail == |run[n].r.pushed| <= run[n].r.head + |run[n].r.buffer|
    ensures run[n].r.delivered == run[n].r.pushed[..run[n].r.head]
  {
    RunKeeps(run, n);
  }

  /** The abstract ring: what has been pushed and not delivered yet. */
  function Contents(r: Ring): seq<Task>
    requires r.head <= |r.pushed|
  {
    r.pushed[r.head..]
  }

  /**
  Each step leaves the contents alone, or appends the task being pushed, or removes from
  the front exactly the tasks that the thread will return.
  */
  lemma StepIsAtomic(run: seq<State>, n: nat, t: nat)
    requires IsRun(run) && n + 1 < |run| && ThreadStep(run[n], t, run[n + 1])
    ensures Inv(run[n]) && Inv(run[n + 1])
    ensures var q, q', p, p' := Contents(run[n].r), Contents(run[n + 1].r), run[n].threads[t], run[n + 1].threads[t];
            || (q' == q && (p'.Got? ==> p'.tasks == []))
            || (p.PushAdd? && |q| < |run[n].r.buffer| && q' == q + [p.x] && p' == Pushed(true))
            || (p'.Got? && q == p'.tasks + q' && ((p.PopCas? && |p'.tasks| == 1) || (p.GrabCas? && 1 <= |p'.tasks| <= p.n)))
  {
    RunKeeps(run, n);
    var s, s' := run[n], run[n + 1];
    StepKeeps(s, t, s');
    var r, p := s.r, s.threads[t];
    assert PcInv(r, p);
    if p.GrabCas? && p.old_ < p.to && r.head == p.old_ {
      WonIsStretch(r, p.h, p.to, p.out);
      assert r.pushed[r.head..] == r.pushed[r.head..p.to] + r.pushed[p.to..];
    }
    if p.PopCas? && r.head == p.h { assert r.pushed[p.h..] == [r.pushed[p.h]] + r.pushed[p.h + 1..]; }
    if p.PushAdd? { assert (r.pushed + [p.x])[r.head..] == r.pushed[r.head..] + [p.x]; }
  }

  /**
  At the load that decides it, TryPush fails exactly on a full ring, and TryPop only on an empty one, always
  if its head is current; Grab gives up exactly if the difference of its two loads is zero as a machine word.
  */
  lemma RefusalsAreRight(run: seq<State>, n: nat, t: nat)
    requires IsRun(run) && n + 1 < |run| && ThreadStep(run[n], t, run[n + 1])
    ensures Inv(run[n])
    ensures var q, p, p' := Contents(run[n].r), run[n].threads[t], run[n + 1].threads[t];
            && (p.PushHead? ==> (p' == Pushed(false) <==> |q| == |run[n].r.buffer|))
            && (p.PopTail? && p' == Got([]) ==> q == [])
            && (p.PopTail? && p.h == run[n].r.head ==> (p' == Got([]) <==> q == []))
            && (p.GrabHead? && p.n > 0 ==> (p' == Got([]) <==> Minus(p.tl, run[n].r.head) == 0))
            && (p.GrabHead? && p.n > 0 && p' == Got([]) ==> run[n].r.head >= p.tl)
  {
    RunKeeps(run, n);
    assert PcInv(run[n].r, run[n].threads[t]);
  }

  /**
  Grab with room decides at its head load whether to return nothing.  It does so exactly if the head is
  where the tail was at the tail load; the ring is then empty if and only if nothing was pushed since.
  The producer itself gets nothing exactly from an empty ring.
  */
  lemma GrabRefusesIff(run: seq<State>, n: nat, t: nat)
    requires IsRun(run) && n + 1 < |run| && ThreadStep(run[n], t, run[n + 1])
    requires run[n].threads[t].GrabHead? && run[n].threads[t].n > 0 && run[n].r.head < run[n].threads[t].tl + WORD
    ensures Inv(run[n])
    ensures var r, p, none := run[n].r, run[n].threads[t], run[n + 1].threads[t] == Got([]);
            && (none <==> r.head == p.tl)
            && (none ==> (Contents(r) == [] <==> r.tail == p.tl))
            && (none && Contents(r) == [] <==> r.head == p.tl == r.tail)
            && (t == 0 ==> (none <==> Contents(r) == []))
  {
    RunKeeps(run, n);
    var r, p := run[n].r, run[n].threads[t];
    assert PcInv(r, p) && Placed(r, p, t);
    MinusZero(p.tl, r.head, r.tail, |r.buffer|);
  }

  /** Positions less than a word apart differ by zero only if they are equal. */
  lemma MinusZero(tl: nat, head: nat, tail: nat, room: nat)
    requires head < tl + WORD && tl <= tail <= head + room && room < WORD
    ensures Minus(tl, head) == 0 <==> tl == head
  {
    if tl >= head { assert (tl - head) % WORD == tl - head; } else { assert (tl - head) % WORD == tl - head + WORD; }
  }

  /** A run takes one more step. */
  lemma Extend(run: seq<State>, t: nat, s': State)
    requires IsRun(run) && ThreadStep(run[|run| - 1], t, s')
    ensures IsRun(run + [s'])
  {
    assert Next(run[|run| - 1], s');
    var run' := run + [s'];
    forall i | 0 < i < |run'| ensures Next(run'[i - 1], run'[i]) {
      if i < |run| { assert Next(run[i - 1], run[i]); }
    }
  }

  lemma ExtendBy(run: seq<State>, t: nat, s1: State, s2: State, s3: State)
    requires IsRun(run) && ThreadStep(run[|run| - 1], t, s1) && ThreadStep(s1, t, s2) && ThreadStep(s2, t, s3)
    ensures IsRun(run + [s1] + [s2] + [s3])
  {
    Extend(run, t, s1);
    Extend(run + [s1], t, s2);
    Extend(run + [s1] + [s2], t, s3);
  }

  function Do(s: State, t: nat, r: Ring, p: Pc): State
    requires t < |s.threads|
  {
    State(r, s.threads[t := p])
  }

  /** From `from` on, thread 2 is inside a call and the ring is not empty. */
  predicate Stays(run: seq<State>, from: nat)
  {
    forall i :: from <= i < |run| ==> |run[i].threads| == 3 && run[i].threads[2] != Idle && run[i].r.head < run[i].r.tail
  }

  /** The producer pushes x. */
  lemma Push(run: seq<State>, from: nat, x: Task) returns (run': seq<State>)
    requires IsRun(run) && Stays(run, from) && var s := run[|run| - 1];
             && |s.threads| == 3 && s.threads[0] == Idle && 0 < |s.r.buffer| < WORD && s.r.head <= s.r.tail < s.r.head + |s.r.buffer|
    ensures IsRun(run') && |run| < |run'| && run'[..|run|] == run && (from < |run| ==> Stays(run', from))
    ensures var s, s' := run[|run| - 1], run'[|run'| - 1];
            && s'.threads == s.threads
            && s'.r == s.r.(buffer := s.r.buffer[s.r.tail % |s.r.buffer| := x], tail := s.r.tail + 1, pushed := s.r.pushed + [x])
  {
    var s0 := run[|run| - 1];
    var r, tl := s0.r, s0.r.tail;
    var s1 := Do(s0, 0, r, PushTail(x));
    var s2 := Do(s1, 0, r, PushHead(x, tl));
    var s3 := Do(s2, 0, r, PushStore(x, tl));
    var r4 := r.(buffer := r.buffer[Slot(r, tl) := x]);
    var s4 := Do(s3, 0, r4, PushAdd(x, tl));
    var r5 := r4.(tail := tl + 1, pushed := r.pushed + [x]);
    var s5 := Do(s4, 0, r5, Pushed(true));
    var s6 := Do(s5, 0, r5, Idle);
    ExtendBy(run, 0, s1, s2, s3);
    ExtendBy(run + [s1] + [s2] + [s3], 0, s4, s5, s6);
    run' := run + [s1] + [s2] + [s3] + [s4] + [s5] + [s6];
    assert s6.threads == s0.threads;
  }

  /** Thread 1 pops the first task ever pushed. */
  lemma PopFirst(run: seq<State>, from: nat) returns (run': seq<State>)
    requires IsRun(run) && from < |run| && Stays(run, from) && var s := run[|run| - 1];
             |s.threads| == 3 && s.threads[1] == Idle && |s.r.buffer| > 0 && s.r.head == 0 && s.r.tail == 2
    ensures IsRun(run') && |run| < |run'| && run'[..|run|] == run && Stays(run', from)
    ensures var s, s' := run[|run| - 1], run'[|run'| - 1]; s'.threads[2] == s.threads[2] && s'.r.head == 1 && s'.r.buffer == s.r.buffer
  {
    var s0 := run[|run| - 1];
    var r, x := s0.r, s0.r.buffer[0];
    var s1 := Do(s0, 1, r, PopHead);
    var s2 := Do(s1, 1, r, PopTail(0));
    var s3 := Do(s2, 1, r, PopRead(0));
    var s4 := Do(s3, 1, r, PopCas(0, x));
    var s5 := Do(s4, 1, Take(r, 1, [x]), Got([x]));
    ExtendBy(run, 1, s1, s2, s3);
    Extend(run + [s1] + [s2] + [s3], 1, s4);
    Extend(run + [s1] + [s2] + [s3] + [s4], 1, s5);
    run' := run + [s1] + [s2] + [s3] + [s4] + [s5];
  }

  /** One task is pushed, and thread 2 has read the tail. */
  lemma GrabBegins() returns (run: seq<State>, from: nat)
    ensures IsRun(run) && from < |run| && Stays(run, from) && run[from].threads[2] == GrabTail(1)
    ensures var s := run[|run| - 1]; s.r == Ring(0, 1, [7, 0], [7], []) && s.threads == [Idle, Idle, GrabHead(1, 1)]
  {
    var init := State(Ring(0, 0, [0, 0], [], []), [Idle, Idle, Idle]);
    var run1 := Push([init], 1, 7);
    from := |run1|;
    var a := run1[|run1| - 1];
    var b := Do(a, 2, a.r, GrabTail(1));
    var c := Do(b, 2, a.r, GrabHead(1, 1));
    Extend(run1, 2, b);
    Extend(run1 + [b], 2, c);
    run := run1 + [b] + [c];
  }

  /** Grab may return nothing although the ring is never empty during the call. */
  lemma GrabMayMiss() returns (run: seq<State>, from: nat)
    ensures IsRun(run) && from < |run| && Stays(run, from)
    ensures run[from].threads[2] == GrabTail(1) && run[|run| - 1].threads[2] == Got([])
  {
    var run2, k := GrabBegins();
    from := k;
    var run3 := Push(run2, from, 8);
    var run4 := PopFirst(run3, from);
    var d := run4[|run4| - 1];
    var e := Do(d, 2, d.r, Got([]));
    assert GrabStep(d.r, d.threads[2], e.r, e.threads[2]);
    Extend(run4, 2, e);
    run := run4 + [e];
    assert run[from] == run4[from] == run3[from] == run2[from];
  }

  // ---- the copy at the end of Grab ---------------------------------------------------------------------

  /** The tasks that were won move to the front of the span, which overlaps with where they are. */
  method MoveDown(span: array<Task>, count: nat, grabbed: nat)
    requires grabbed <= count <= span.Length
    modifies span
    ensures forall j :: 0 <= j < grabbed ==> span[j] == old(span[count - grabbed + j])
    ensures forall j :: count <= j < span.Length ==> span[j] == old(span[j])
  {
    for i := 0 to grabbed
      invariant forall j :: 0 <= j < i ==> span[j] == old(span[count - grabbed + j])
      invariant forall j :: i <= j < span.Length ==> span[j] == old(span[j])
    {
      span[i] := span[count - grabbed + i];
    }
  }
}

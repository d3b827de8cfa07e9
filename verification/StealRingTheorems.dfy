/**
What the callers of the ring see: every run is a run of a bounded queue from whose front tasks are
taken one at a time or in stretches; and a thread that runs alone gets through its call, with as many
tasks as there are and as it has room for.
*/
module StealRingTheorems {
  import opened StealRing

  // ---- the specification ---------------------------------------------------------------------

  datatype Op = Free | Pushes(x: Task) | Told(ok: bool) | Pops | Grabs(n: nat) | Gets(tasks: seq<Task>)

  datatype Spec = Spec(capacity: nat, q: seq<Task>, ops: seq<Op>)

  predicate Moves(capacity: nat, t: nat, q: seq<Task>, op: Op, q': seq<Task>, op': Op)
  {
    || (q' == q && op' == op)
    || match op
       case Free => q' == q && ((t == 0 && op'.Pushes?) || op'.Pops? || op'.Grabs?)
       case Pushes(x) =>
         || (op' == Told(true) && |q| < capacity && q' == q + [x])
         || (op' == Told(false) && |q| == capacity && q' == q)
       case Pops => op'.Gets? && q == op'.tasks + q' && (|op'.tasks| == 1 || (op'.tasks == [] && q == []))
       case Grabs(n) => op'.Gets? && q == op'.tasks + q' && |op'.tasks| <= n
       case Told(_) => q' == q && op' == Free
       case Gets(_) => q' == q && op' == Free
  }

  predicate SpecStep(a: Spec, t: nat, a': Spec)
  {
    && t < |a.ops| == |a'.ops| && a'.capacity == a.capacity && a'.ops == a.ops[t := a'.ops[t]]
    && Moves(a.capacity, t, a.q, a.ops[t], a'.q, a'.ops[t])
  }

  ghost predicate SpecNext(a: Spec, a': Spec)
  {
    exists t :: SpecStep(a, t, a')
  }

  ghost predicate SpecRun(run: seq<Spec>)
  {
    && |run| > 0 && run[0].q == [] && (forall t :: 0 <= t < |run[0].ops| ==> run[0].ops[t] == Free)
    && forall i :: 0 < i < |run| ==> SpecNext(run[i - 1], run[i])
  }

  function OpOf(p: Pc): Op
  {
    match p
    case Idle => Free
    case PushTail(x) => Pushes(x)
    case PushHead(x, _) => Pushes(x)
    case PushStore(x, _) => Pushes(x)
    case PushAdd(x, _) => Pushes(x)
    case Pushed(ok) => Told(ok)
    case PopHead => Pops
    case PopTail(_) => Pops
    case PopRead(_) => Pops
    case PopCas(_, _) => Pops
    case GrabTail(n) => Grabs(n)
    case GrabHead(n, _) => Grabs(n)
    case GrabRead(n, _, _, _, _) => Grabs(n)
    case GrabCas(n, _, _, _, _) => Grabs(n)
    case Got(tasks) => Gets(tasks)
  }

  function Waiting(r: Ring): seq<Task>
  {
    if r.head <= |r.pushed| then Contents(r) else []
  }

  function Abs(s: State): Spec
  {
    Spec(|s.r.buffer|, Waiting(s.r), seq(|s.threads|, t requires 0 <= t < |s.threads| => OpOf(s.threads[t])))
  }

  lemma PushMoves(r: Ring, p: Pc, r': Ring, p': Pc, t: nat)
    requires RingInv(r) && PcInv(r, p) && PushStep(r, p, r', p')
    ensures |r'.buffer| == |r.buffer| && Moves(|r.buffer|, t, Waiting(r), OpOf(p), Waiting(r'), OpOf(p'))
  {
    if p.PushHead? { MinusSmall(r, p.tl); }
    if p.PushAdd? { assert (r.pushed + [p.x])[r.head..] == r.pushed[r.head..] + [p.x]; }
  }

  lemma PopMoves(r: Ring, p: Pc, r': Ring, p': Pc, t: nat)
    requires RingInv(r) && PcInv(r, p) && PopStep(r, p, r', p')
    ensures |r'.buffer| == |r.buffer| && Moves(|r.buffer|, t, Waiting(r), OpOf(p), Waiting(r'), OpOf(p'))
  {
    if p.PopCas? && r.head == p.h { assert r.pushed[p.h..] == [r.pushed[p.h]] + r.pushed[p.h + 1..]; }
  }

  lemma GrabMoves(r: Ring, p: Pc, r': Ring, p': Pc, t: nat)
    requires RingInv(r) && PcInv(r, p) && GrabStep(r, p, r', p')
    ensures |r'.buffer| == |r.buffer| && Moves(|r.buffer|, t, Waiting(r), OpOf(p), Waiting(r'), OpOf(p'))
  {
    if p.GrabCas? && p.old_ < p.to && r.head == p.old_ {
      WonIsStretch(r, p.h, p.to, p.out);
      assert r.pushed[r.head..] == r.pushed[r.head..p.to] + r.pushed[p.to..];
    }
  }

  lemma StepRefines(s: State, t: nat, s': State)
    requires Inv(s) && ThreadStep(s, t, s')
    ensures SpecStep(Abs(s), t, Abs(s'))
  {
    var p, p' := s.threads[t], s'.threads[t];
    assert PcInv(s.r, p);
    if PushStep(s.r, p, s'.r, p') { PushMoves(s.r, p, s'.r, p', t); }
    else if PopStep(s.r, p, s'.r, p') { PopMoves(s.r, p, s'.r, p', t); }
    else if GrabStep(s.r, p, s'.r, p') { GrabMoves(s.r, p, s'.r, p', t); }
    assert Abs(s').ops == Abs(s).ops[t := OpOf(p')];
  }

  /** Every run is a run of the bounded queue. */
  lemma RunRefines(run: seq<State>)
    requires IsRun(run)
    ensures SpecRun(seq(|run|, i requires 0 <= i < |run| => Abs(run[i])))
  {
    var abs := seq(|run|, i requires 0 <= i < |run| => Abs(run[i]));
    assert abs[0] == Abs(run[0]);
    forall i | 0 < i < |abs| ensures SpecNext(abs[i - 1], abs[i]) {
      RunKeeps(run, i - 1);
      assert Next(run[i - 1], run[i]);
      var t: nat :| ThreadStep(run[i - 1], t, run[i]);
      StepRefines(run[i - 1], t, run[i]);
      assert SpecStep(abs[i - 1], t, abs[i]);
    }
  }

  // ---- alone ----------------------------------------------------------------------------------------

  /** A Grab that nobody disturbed so far: its copy is the front of the ring. */
  predicate Undisturbed(r: Ring, p: Pc)
  {
    var q := Waiting(r);
    match p
    case GrabTail(_) => true
    case GrabHead(_, tl) => tl == r.tail
    case GrabRead(n, h, count, to, out) =>
      h == r.head && count == Min(n, |q|) > 0 && to == h + count && |out| <= count && out == q[..|out|]
    case GrabCas(n, h, old_, to, out) => old_ == h == r.head && to == h + Min(n, |q|) && out == q[..Min(n, |q|)] && out != []
    case _ => false
  }

  lemma GrabGoesOn(r: Ring, p: Pc, r': Ring, p': Pc, n: nat)
    requires RingInv(r) && PcInv(r, p) && GrabStep(r, p, r', p') && Undisturbed(r, p) && p.n == n
    ensures if p'.Got? then p'.tasks == Waiting(r)[..Min(n, |Waiting(r)|)] else r' == r && Undisturbed(r', p') && p'.n == n
  {
    match p
    case GrabHead(_, tl) => MinusSmall(r, tl);
    case GrabRead(_, _, _, _, _) => ReadGoesOn(r, p, r', p');
    case GrabCas(_, h, _, to, out) => assert Won(h, h, to, out) == out;
    case _ =>
  }

  lemma ReadGoesOn(r: Ring, p: Pc, r': Ring, p': Pc)
    requires RingInv(r) && GrabStep(r, p, r', p') && p.GrabRead? && Undisturbed(r, p)
    ensures r' == r && Undisturbed(r', p') && p'.n == p.n
  {
    if |p.out| < p.count { ReadsNext(r, p.h, p.out); }
  }

  lemma ReadsNext(r: Ring, h: nat, out: seq<Task>)
    requires RingInv(r) && h == r.head && |out| < |Waiting(r)| && out == Waiting(r)[..|out|]
    ensures out + [r.buffer[Slot(r, h + |out|)]] == Waiting(r)[..|out| + 1]
  {
    assert Fresh(r, h + |out|);
  }

  /** A Grab that runs alone returns the oldest tasks, as many as it has room for or there are. */
  lemma {:induction false} GrabAlone(states: seq<State>, t: nat, n: nat)
    requires |states| > 0 && Inv(states[0]) && t < |states[0].threads| && Undisturbed(states[0].r, states[0].threads[t]) && states[0].threads[t].n == n
    requires forall i :: 0 <= i < |states| - 1 ==> ThreadStep(states[i], t, states[i + 1])
    requires |states[|states| - 1].threads| > t && states[|states| - 1].threads[t].Got?
    requires forall i :: 0 <= i < |states| - 1 ==> InGrab(states[i], t)
    ensures states[|states| - 1].threads[t].tasks == Waiting(states[0].r)[..Min(n, |Waiting(states[0].r)|)]
    decreases |states|
  {
    var s, s' := states[0], states[1];
    assert ThreadStep(states[0], t, states[1]) && InGrab(states[0], t);
    assert PcInv(s.r, s.threads[t]);
    GrabGoesOn(s.r, s.threads[t], s'.r, s'.threads[t], n);
    if |states| > 2 {
      StepKeeps(s, t, s');
      var rest := states[1..];
      assert InGrab(states[1], t);
      forall i | 0 <= i < |rest| - 1 ensures ThreadStep(rest[i], t, rest[i + 1]) && InGrab(rest[i], t) {
        assert ThreadStep(states[i + 1], t, states[i + 2]) && InGrab(states[i + 1], t);
      }
      GrabAlone(rest, t, n);
    }
  }

  predicate InGrab(s: State, t: nat)
  {
    t < |s.threads| && (s.threads[t].GrabTail? || s.threads[t].GrabHead? || s.threads[t].GrabRead? || s.threads[t].GrabCas?)
  }

  // ---- progress ---------------------------------------------------------------------------------------

  /** Steps until a thread that runs alone returns. */
  function Rank(r: Ring, p: Pc): nat
  {
    match p
    case Idle => 0
    case PushTail(_) => 5
    case PushHead(_, _) => 4
    case PushStore(_, _) => 3
    case PushAdd(_, _) => 2
    case Pushed(_) => 1
    case PopHead => 5
    case PopTail(h) => if h == r.head then 4 else 7
    case PopRead(h) => if h == r.head then 3 else 6
    case PopCas(h, _) => if h == r.head then 2 else 5
    case GrabTail(n) => n + 7
    case GrabHead(n, tl) => if tl >= r.head then n + 6 else 2 * n + 14
    case GrabRead(n, h, count, to, out) =>
      (if |out| < count then count - |out| else 0) + if h == r.head && h < to then 3 else n + 10
    case GrabCas(n, _, old_, to, _) =>
      if old_ >= to then n + 8 else if r.head == old_ then 2 else if r.head >= to then n + 9 else 3
    case Got(_) => 1
  }

  lemma RankBound(r: Ring, p: Pc)
    requires RingInv(r) && PcInv(r, p)
    ensures Rank(r, p) <= 14 + 2 * RoomOf(p)
  {}

  function RoomOf(p: Pc): nat
  {
    if p.GrabTail? || p.GrabHead? || p.GrabRead? || p.GrabCas? then p.n else 0
  }

  lemma StepCloser(r: Ring, p: Pc, r': Ring, p': Pc)
    requires RingInv(r) && PcInv(r, p) && (PushStep(r, p, r', p') || PopStep(r, p, r', p') || GrabStep(r, p, r', p'))
    ensures Rank(r', p') < Rank(r, p)
  {
    if GrabStep(r, p, r', p') { GrabCloser(r, p, r', p'); } else if PopStep(r, p, r', p') { PopCloser(r, p, r', p'); }
  }

  lemma PopCloser(r: Ring, p: Pc, r': Ring, p': Pc)
    requires RingInv(r) && PcInv(r, p) && PopStep(r, p, r', p')
    ensures Rank(r', p') < Rank(r, p)
  {}

  lemma GrabCloser(r: Ring, p: Pc, r': Ring, p': Pc)
    requires RingInv(r) && PcInv(r, p) && GrabStep(r, p, r', p')
    ensures Rank(r', p') < Rank(r, p)
  {
    if p.GrabHead? && p.tl >= r.head { MinusSmall(r, p.tl); }
  }

  /** t runs alone, and is inside a call in all states but perhaps the last. */
  ghost predicate Alone(states: seq<State>, t: nat)
  {
    |states| > 0 && t < |states[0].threads| && forall i :: 0 <= i < |states| - 1 ==> SoloStep(states[i], t, states[i + 1])
  }

  ghost predicate SoloStep(s: State, t: nat, s': State)
  {
    ThreadStep(s, t, s') && !s.threads[t].Idle?
  }

  lemma {:induction false} RankFalls(states: seq<State>, t: nat, i: nat)
    requires Alone(states, t) && Inv(states[0]) && i < |states|
    ensures Inv(states[i]) && t < |states[i].threads| && Rank(states[i].r, states[i].threads[t]) + i <= Rank(states[0].r, states[0].threads[t])
  {
    if i > 0 {
      RankFalls(states, t, i - 1);
      var s, s' := states[i - 1], states[i];
      assert SoloStep(s, t, s') && PcInv(s.r, s.threads[t]);
      StepKeeps(s, t, s');
      StepCloser(s.r, s.threads[t], s'.r, s'.threads[t]);
    }
  }

  /** From any state of any run, a thread that runs alone returns within 14 steps, and two more for each place in its span. */
  lemma ReturnsAlone(run: seq<State>, n: nat, states: seq<State>, t: nat)
    requires IsRun(run) && n < |run| && Alone(states, t) && states[0] == run[n]
    ensures |states| <= 15 + 2 * RoomOf(run[n].threads[t])
  {
    RunKeeps(run, n);
    RankFalls(states, t, |states| - 1);
    assert PcInv(run[n].r, run[n].threads[t]);
    RankBound(run[n].r, run[n].threads[t]);
  }
}

/**
Conservation of split counts.  Every pending act carries the share of the counts
it still has to settle; the shares, the handles and the cells of a block always
add up to its counter, whatever the interleaving.
*/
module AtomicSharedPtrProof {
  import opened AtomicSharedPtr
  import opened Sums

  // ---- shares -------------------------------------------------------------------

  /** What an act still has to take from the transient count of b. */
  function ActT(a: Act, b: Ptr): int
  {
    match a
    case DropRef(p) => if p == b then 1 else 0
    case Cleanup(p, n) => if p == b then -(n as int) else 0
    case LowerBy(p, n) => if p == b then n else 0
    case Flush(_, p, n) => if p == b then n else 0
    case _ => 0
  }

  /** What it has to take from the strong count, or to turn into a cell's share. */
  function ActS(a: Act, b: Ptr): int
  {
    match a
    case Lower(p) => if p == b then 1 else 0
    case Cleanup(p, _) => if p == b then 1 else 0
    case LowerBy(p, _) => if p == b then 1 else 0
    case Flush(_, p, _) => if p == b then 1 else 0
    case Exchange(_, p) => if p == b then 1 else 0
    case CasTry(_, _, p) => if p == b then 1 else 0
    case _ => 0
  }

  function TodoT(todo: seq<Act>, b: Ptr): int
  {
    if todo == [] then 0 else ActT(todo[0], b) + TodoT(todo[1..], b)
  }

  function TodoS(todo: seq<Act>, b: Ptr): int
  {
    if todo == [] then 0 else ActS(todo[0], b) + TodoS(todo[1..], b)
  }

  lemma {:induction false} TodoConcat(x: seq<Act>, y: seq<Act>, b: Ptr)
    ensures TodoT(x + y, b) == TodoT(x, b) + TodoT(y, b) && TodoS(x + y, b) == TodoS(x, b) + TodoS(y, b)
  {
    if x == [] {
      assert x + y == y;
    } else {
      assert (x + y)[1..] == x[1..] + y;
      TodoConcat(x[1..], y, b);
    }
  }

  lemma TodoOne(a: Act, b: Ptr)
    ensures TodoT([a], b) == ActT(a, b) && TodoS([a], b) == ActS(a, b)
  {
    assert [a][1..] == [];
  }

  function ShareT(l: Local, b: Ptr): int
  {
    l.handles[b] + TodoT(l.todo, b)
  }

  function ShareS(l: Local, b: Ptr): int
  {
    TodoS(l.todo, b)
  }

  function CellT(c: Stamped, b: Ptr): int
  {
    if c.ptr == b then c.stamp else 0
  }

  function CellS(c: Stamped, b: Ptr): int
  {
    if c.ptr == b then 1 else 0
  }

  function ThreadsT(ts: seq<Local>, b: Ptr): seq<int>
  {
    seq(|ts|, i requires 0 <= i < |ts| => ShareT(ts[i], b))
  }

  function ThreadsS(ts: seq<Local>, b: Ptr): seq<int>
  {
    seq(|ts|, i requires 0 <= i < |ts| => ShareS(ts[i], b))
  }

  function CellsT(cs: seq<Stamped>, b: Ptr): seq<int>
  {
    seq(|cs|, i requires 0 <= i < |cs| => CellT(cs[i], b))
  }

  function CellsS(cs: seq<Stamped>, b: Ptr): seq<int>
  {
    seq(|cs|, i requires 0 <= i < |cs| => CellS(cs[i], b))
  }

  /** The conservation law. */
  predicate Balanced(s: State, b: Ptr)
    requires b in s.blocks
  {
    && s.blocks[b].count.transient + Sum(CellsT(s.cells, b)) == Sum(ThreadsT(s.threads, b))
    && s.blocks[b].count.strong == Sum(CellsS(s.cells, b)) + Sum(ThreadsS(s.threads, b))
  }

  // ---- the shape of a thread -------------------------------------------------------

  /** Acts that may still wait behind the first one. */
  predicate Later(todo: seq<Act>)
  {
    forall i :: 0 <= i < |todo| ==> todo[i].LoadRead? || (todo[i].DropRef? && todo[i].p != 0)
  }

  /** The thread holds a handle on p besides the act at hand. */
  predicate Backed(l: Local, p: Ptr)
    requires l.todo != []
  {
    l.handles[p] + TodoT(l.todo[1..], p) >= 1
  }

  predicate Puts(a: Act, p: Ptr)
  {
    (a.Exchange? || a.CasTry?) && a.p == p
  }

  predicate HeadOk(l: Local)
    requires l.todo != []
  {
    match l.todo[0]
    case AddRef(p, isNew) => p != 0 && (!isNew ==> Backed(l, p))
    case DropRef(p) => p != 0
    case RaiseFor(p, next) => p != 0 && Backed(l, p) && Puts(next, p) && ExpectOk(l, next)
    case Lower(p) => p != 0 && Backed(l, p)
    case Cleanup(p, _) => p != 0
    case RaiseBy(p, _, _) => p != 0 && Backed(l, p)
    case LowerBy(p, _) => p != 0 && Backed(l, p)
    case Flush(_, p, _) => p != 0 && Backed(l, p)
    case Exchange(_, p) => p != 0 ==> Backed(l, p)
    case CasRead(_, e, p) => (p != 0 ==> Backed(l, p)) && Has(l.handles, e)
    case CasTry(_, ex, p) => (p != 0 ==> Backed(l, p)) && Has(l.handles, ex.ptr)
    case Delete(p) => p != 0
    case _ => true
  }

  predicate ExpectOk(l: Local, a: Act)
  {
    a.CasTry? ==> Has(l.handles, a.ex.ptr)
  }

  predicate WellFormed(l: Local)
  {
    0 !in l.handles && (l.todo != [] ==> HeadOk(l) && Later(l.todo[1..]))
  }

  /** Holds the block alone: creates it or is about to delete it. */
  predicate HoldsAlone(l: Local, b: Ptr)
  {
    l.todo != [] && (l.todo[0] == Delete(b) || l.todo[0] == AddRef(b, true))
  }

  predicate ActMentions(a: Act, b: Ptr)
  {
    match a
    case LoadRead(_) => false
    case LoadTry(_, _) => false
    case CasRead(_, e, p) => p == b || e == b
    case CasTry(_, ex, p) => p == b || ex.ptr == b
    case _ => a.p == b
  }

  predicate Mentions(l: Local, b: Ptr)
  {
    b in l.handles || exists i :: 0 <= i < |l.todo| && ActMentions(l.todo[i], b)
  }

  lemma {:induction false} LaterShares(todo: seq<Act>, b: Ptr)
    requires Later(todo)
    ensures TodoT(todo, b) >= 0 && TodoS(todo, b) == 0
    ensures (exists i :: 0 <= i < |todo| && ActMentions(todo[i], b)) ==> TodoT(todo, b) >= 1
  {
    if todo != [] {
      LaterShares(todo[1..], b);
      if i :| 0 <= i < |todo| && ActMentions(todo[i], b) {
        if i > 0 { assert ActMentions(todo[1..][i - 1], b); }
      }
    }
  }

  /** A thread that mentions a block owns a share of it, or holds it alone. */
  lemma SharePositive(l: Local, b: Ptr)
    requires WellFormed(l) && b != 0
    ensures ShareS(l, b) >= 0 && (ShareS(l, b) == 0 ==> ShareT(l, b) >= 0)
    ensures Mentions(l, b) ==> ShareS(l, b) >= 1 || ShareT(l, b) >= 1 || HoldsAlone(l, b)
  {
    if l.todo != [] {
      LaterShares(l.todo[1..], b);
      if b !in l.handles && Mentions(l, b) {
        var i :| 0 <= i < |l.todo| && ActMentions(l.todo[i], b);
        if i > 0 { assert ActMentions(l.todo[1..][i - 1], b); }
      }
    }
  }

  // ---- the invariant -------------------------------------------------------------------

  predicate BlockOk(s: State, b: Ptr)
    requires b in s.blocks
  {
    && b != 0 && Balanced(s, b)
    && (s.blocks[b].count == Count(0, 0) <==> s.blocks[b].holder.Some?)
    && (s.blocks[b].holder.Some? ==> s.blocks[b].holder.value < |s.threads| && HoldsAlone(s.threads[s.blocks[b].holder.value], b))
  }

  ghost predicate ThreadOk(s: State, t: nat)
    requires t < |s.threads|
  {
    && WellFormed(s.threads[t])
    && forall b {:trigger Mentions(s.threads[t], b)} :: b != 0 && Mentions(s.threads[t], b) ==>
         b in s.blocks && (HoldsAlone(s.threads[t], b) ==> s.blocks[b].holder == Some(t))
  }

  ghost predicate Inv(s: State)
  {
    && (forall b {:trigger BlockOk(s, b)} :: b in s.blocks ==> BlockOk(s, b))
    && (forall t {:trigger ThreadOk(s, t)} :: 0 <= t < |s.threads| ==> ThreadOk(s, t))
    && (forall c :: 0 <= c < |s.cells| && s.cells[c].ptr != 0 ==> s.cells[c].ptr in s.blocks)
  }

  /** A zero counter means that no cell points at the block and no thread has a share in it. */
  lemma ZeroMeansUnused(s: State, b: Ptr)
    requires b in s.blocks && b != 0 && Balanced(s, b) && s.blocks[b].count == Count(0, 0)
    requires forall t :: 0 <= t < |s.threads| ==> WellFormed(s.threads[t])
    ensures forall c :: 0 <= c < |s.cells| ==> s.cells[c].ptr != b
    ensures forall t :: 0 <= t < |s.threads| ==> ShareT(s.threads[t], b) == 0 && ShareS(s.threads[t], b) == 0
  {
    var ps, ss, ts, xs := CellsS(s.cells, b), ThreadsS(s.threads, b), ThreadsT(s.threads, b), CellsT(s.cells, b);
    forall t | 0 <= t < |s.threads| ensures ss[t] >= 0 && (ss[t] == 0 ==> ts[t] >= 0) {
      SharePositive(s.threads[t], b);
    }
    SumZero(ps);
    SumZero(ss);
    forall c | 0 <= c < |s.cells| ensures s.cells[c].ptr != b && xs[c] == 0 { assert ps[c] == 0; }
    SumAllZero(xs);
    SumZero(ts);
    forall t | 0 <= t < |s.threads| ensures ShareT(s.threads[t], b) == 0 && ShareS(s.threads[t], b) == 0 {
      assert ts[t] == 0 && ss[t] == 0;
    }
  }

  /** While one thread holds a block alone, no other thread mentions it and no cell points at it. */
  lemma HeldByOne(s: State, b: Ptr, t: nat)
    requires Inv(s) && b in s.blocks && t < |s.threads| && Mentions(s.threads[t], b)
    requires s.blocks[b].count == Count(0, 0)
    ensures HoldsAlone(s.threads[t], b) && s.blocks[b].holder == Some(t)
    ensures forall c :: 0 <= c < |s.cells| ==> s.cells[c].ptr != b
  {
    assert BlockOk(s, b);
    forall u | 0 <= u < |s.threads| ensures WellFormed(s.threads[u]) { assert ThreadOk(s, u); }
    ZeroMeansUnused(s, b);
    SharePositive(s.threads[t], b);
    assert ThreadOk(s, t);
  }

  // ---- re-establishing the law ------------------------------------------------------------

  function DeltaT(s: State, s': State, c: nat, b: Ptr): int
  {
    if c < |s.cells| == |s'.cells| then CellT(s'.cells[c], b) - CellT(s.cells[c], b) else 0
  }

  function DeltaS(s: State, s': State, c: nat, b: Ptr): int
  {
    if c < |s.cells| == |s'.cells| then CellS(s'.cells[c], b) - CellS(s.cells[c], b) else 0
  }

  /** Only thread t and cell c change. */
  predicate Moves(s: State, s': State, t: nat, c: nat)
  {
    && t < |s.threads| == |s'.threads| && s'.threads == s.threads[t := s'.threads[t]]
    && (s'.cells == s.cells || (c < |s.cells| == |s'.cells| && s'.cells == s.cells[c := s'.cells[c]]))
  }

  /** The share of thread t in b changes by what the counter and the cell gain. */
  predicate Settles(s: State, s': State, t: nat, c: nat, b: Ptr, dt: int, ds: int)
    requires Moves(s, s', t, c)
  {
    && ShareT(s'.threads[t], b) - ShareT(s.threads[t], b) == dt + DeltaT(s, s', c, b)
    && ShareS(s'.threads[t], b) - ShareS(s.threads[t], b) == ds - DeltaS(s, s', c, b)
  }

  lemma Rebalance(s: State, s': State, t: nat, c: nat, b: Ptr)
    requires b in s.blocks && b in s'.blocks && Balanced(s, b) && Moves(s, s', t, c)
    requires Settles(s, s', t, c, b, s'.blocks[b].count.transient - s.blocks[b].count.transient,
                     s'.blocks[b].count.strong - s.blocks[b].count.strong)
    ensures Balanced(s', b)
  {
    var l' := s'.threads[t];
    assert ThreadsT(s'.threads, b) == ThreadsT(s.threads, b)[t := ShareT(l', b)];
    assert ThreadsS(s'.threads, b) == ThreadsS(s.threads, b)[t := ShareS(l', b)];
    SumUpdate(ThreadsT(s.threads, b), t, ShareT(l', b));
    SumUpdate(ThreadsS(s.threads, b), t, ShareS(l', b));
    if s'.cells != s.cells {
      assert CellsT(s'.cells, b) == CellsT(s.cells, b)[c := CellT(s'.cells[c], b)];
      assert CellsS(s'.cells, b) == CellsS(s.cells, b)[c := CellS(s'.cells[c], b)];
      SumUpdate(CellsT(s.cells, b), c, CellT(s'.cells[c], b));
      SumUpdate(CellsS(s.cells, b), c, CellS(s'.cells[c], b));
    }
  }

  /** A thread's new local state is fit to replace the old one. */
  ghost predicate Fits(s: State, l: Local, l': Local)
  {
    && WellFormed(l')
    && forall b {:trigger FitsAt(s, l, l', b)} :: b != 0 ==> FitsAt(s, l, l', b)
  }

  predicate FitsAt(s: State, l: Local, l': Local, b: Ptr)
  {
    && (Mentions(l', b) ==> b in s.blocks)
    && (HoldsAlone(l', b) <==> HoldsAlone(l, b))
  }

  /** Steps that leave the blocks alone. */
  lemma ShiftKeeps(s: State, s': State, t: nat, c: nat)
    requires Inv(s) && Moves(s, s', t, c) && s'.blocks == s.blocks
    requires Fits(s, s.threads[t], s'.threads[t])
    requires forall b :: b != 0 ==> Settles(s, s', t, c, b, 0, 0)
    requires c < |s'.cells| && s'.cells != s.cells && s'.cells[c].ptr != 0 ==> s'.cells[c].ptr in s.blocks
    ensures Inv(s')
  {
    forall b | b in s'.blocks ensures BlockOk(s', b) {
      assert BlockOk(s, b);
      Rebalance(s, s', t, c, b);
      assert FitsAt(s, s.threads[t], s'.threads[t], b);
    }
    forall u | 0 <= u < |s'.threads| ensures ThreadOk(s', u) {
      assert ThreadOk(s, u);
      if u == t {
        forall b | b != 0 && Mentions(s'.threads[t], b)
          ensures b in s'.blocks && (HoldsAlone(s'.threads[t], b) ==> s'.blocks[b].holder == Some(t))
        {
          assert FitsAt(s, s.threads[t], s'.threads[t], b);
          if HoldsAlone(s'.threads[t], b) { assert ActMentions(s.threads[t].todo[0], b) && Mentions(s.threads[t], b); }
        }
      }
    }
  }

  // ---- calls ---------------------------------------------------------------------------------

  lemma StartedFits(s: State, l: Local, op: Op)
    requires WellFormed(l) && Callable(s, l, op)
    ensures WellFormed(Started(l, op))
  {
    var l' := Started(l, op);
    if op.Store? && op.p != 0 { assert l'.todo[1..] == [DropRef(op.p)]; }
    if op.Cas? { assert l'.todo[1..] == DropLater(op.p); }
  }

  /** An act followed by the destructor of a parameter. */
  lemma ThenDropShares(a: Act, p: Ptr, b: Ptr)
    requires b != 0
    ensures TodoT([a] + DropLater(p), b) == ActT(a, b) + (if p == b then 1 else 0)
    ensures TodoS([a] + DropLater(p), b) == ActS(a, b)
  {
    TodoConcat([a], DropLater(p), b);
    TodoOne(a, b);
    TodoOne(DropRef(p), b);
  }

  /** A call moves shares between handles and acts, and changes no total. */
  lemma StartedShares(s: State, l: Local, op: Op, b: Ptr)
    requires WellFormed(l) && Callable(s, l, op) && b != 0
    ensures ShareT(Started(l, op), b) == ShareT(l, b) && ShareS(Started(l, op), b) == ShareS(l, b)
  {
    match op
    case Copy(p) => TodoOne(AddRef(p, false), b);
    case Reset(p) => TodoOne(DropRef(p), b);
    case Load(c) => TodoOne(LoadRead(c), b);
    case Store(c, p) => PutShares(l, PutLater(p, Exchange(c, p))[0], p, b);
    case Cas(c, e, p) => PutShares(l, CasRead(c, e, p), p, b);
  }

  /** The handle passed by value becomes the destructor of the parameter. */
  lemma PutShares(l: Local, a: Act, p: Ptr, b: Ptr)
    requires b != 0 && Has(l.handles, p) && ActT(a, b) == 0 && ActS(a, b) == 0
    ensures Without(l.handles, p)[b] + TodoT([a] + DropLater(p), b) == l.handles[b] && TodoS([a] + DropLater(p), b) == 0
  {
    ThenDropShares(a, p, b);
  }

  lemma StartedMentions(s: State, l: Local, op: Op, b: Ptr)
    requires WellFormed(l) && Callable(s, l, op) && b != 0
    ensures Mentions(Started(l, op), b) ==> Mentions(l, b)
    ensures !HoldsAlone(Started(l, op), b)
  {
    match op
    case Copy(p) => assert b in l.handles || p != b;
    case Reset(p) => assert b in l.handles || p != b;
    case Load(_) =>
    case Store(c, p) => if p != b { PutMentions(c, p, b); }
    case Cas(_, e, p) => assert b in l.handles || (p != b && e != b);
  }

  lemma PutMentions(c: nat, p: Ptr, b: Ptr)
    requires b != 0 && p != b
    ensures forall i :: 0 <= i < |PutLater(p, Exchange(c, p)) + DropLater(p)| ==> !ActMentions((PutLater(p, Exchange(c, p)) + DropLater(p))[i], b)
  {}

  lemma CallKeeps(s: State, t: nat, s': State)
    requires Inv(s) && t < |s.threads| && Call(s, t, s')
    ensures Inv(s')
  {
    var l := s.threads[t];
    var op :| Callable(s, l, op) && s' == Go(s, t, Started(l, op));
    assert ThreadOk(s, t);
    StartedFits(s, l, op);
    forall b | b != 0 ensures Settles(s, s', t, 0, b, 0, 0) && FitsAt(s, l, s'.threads[t], b) {
      StartedShares(s, l, op, b);
      StartedMentions(s, l, op, b);
    }
    ShiftKeeps(s, s', t, 0);
  }

  // ---- operations on cells --------------------------------------------------------------------

  /** What the acts put in place of the first one must add up to. */
  predicate Swaps(s: State, s': State, t: nat, c: nat, acts: seq<Act>, b: Ptr)
    requires t < |s.threads| == |s'.threads| && s.threads[t].todo != []
  {
    var l, l' := s.threads[t], s'.threads[t];
    && (l'.handles[b] - l.handles[b]) + TodoT(acts, b) - ActT(l.todo[0], b) == DeltaT(s, s', c, b)
    && TodoS(acts, b) - ActS(l.todo[0], b) == -DeltaS(s, s', c, b)
    && ((b in l'.handles || exists i :: 0 <= i < |acts| && ActMentions(acts[i], b)) ==> b in s.blocks)
  }

  /** A step that replaces the first act and changes one cell. */
  lemma SwapKeeps(s: State, s': State, t: nat, c: nat, acts: seq<Act>)
    requires Inv(s) && Moves(s, s', t, c) && s'.blocks == s.blocks && s.threads[t].todo != []
    requires s'.threads[t] == Instead(s.threads[t], acts).(handles := s'.threads[t].handles, call := s'.threads[t].call)
    requires WellFormed(s'.threads[t])
    requires !s.threads[t].todo[0].Delete? && !s.threads[t].todo[0].AddRef?
    requires s'.threads[t].todo != [] ==> !s'.threads[t].todo[0].Delete? && !s'.threads[t].todo[0].AddRef?
    requires forall b :: b != 0 ==> Swaps(s, s', t, c, acts, b)
    requires c < |s'.cells| && s'.cells != s.cells && s'.cells[c].ptr != 0 ==> s'.cells[c].ptr in s.blocks
    ensures Inv(s')
  {
    var l, l' := s.threads[t], s'.threads[t];
    assert ThreadOk(s, t);
    forall b | b != 0 ensures Settles(s, s', t, c, b, 0, 0) && FitsAt(s, l, l', b) {
      assert Swaps(s, s', t, c, acts, b);
      TodoConcat(acts, l.todo[1..], b);
      if b !in l'.handles && Mentions(l', b) {
        var i :| 0 <= i < |l'.todo| && ActMentions(l'.todo[i], b);
        if i < |acts| { assert ActMentions(acts[i], b); } else { assert ActMentions(l.todo[i - |acts| + 1], b) && Mentions(l, b); }
      }
    }
    ShiftKeeps(s, s', t, c);
  }

  lemma HeadMentions(s: State, t: nat, b: Ptr)
    requires Inv(s) && t < |s.threads| && b != 0
    requires b in s.threads[t].handles || (s.threads[t].todo != [] && ActMentions(s.threads[t].todo[0], b))
    ensures b in s.blocks
  {
    assert ThreadOk(s, t);
    assert Mentions(s.threads[t], b);
  }

  lemma LoadKeeps(s: State, t: nat, s': State)
    requires Inv(s) && t < |s.threads| && LoadStep(s, t, s')
    ensures Inv(s')
  {
    var l, l' := s.threads[t], s'.threads[t];
    var c := l.todo[0].c;
    assert ThreadOk(s, t);
    if s'.cells == s.cells {
      assert l'.todo[1..] == l.todo[1..];
      forall b | b != 0 ensures Swaps(s, s', t, c, [LoadTry(c, s.cells[c])], b) {
        TodoOne(LoadTry(c, s.cells[c]), b);
        if b in l'.handles { HeadMentions(s, t, b); }
      }
      SwapKeeps(s, s', t, c, [LoadTry(c, s.cells[c])]);
    } else {
      LoadedKeeps(s, t, s', c);
    }
  }

  lemma LoadedFits(l: Local, c: nat, p: Ptr, n: nat)
    requires WellFormed(l) && l.todo != []
    ensures WellFormed(Instead(l, LoadedActs(c, p, n)).(handles := With(l.handles, p), call := Got(l.call, p)))
  {
    var acts := LoadedActs(c, p, n);
    var l' := Instead(l, acts).(handles := With(l.handles, p), call := Got(l.call, p));
    if acts == [] { assert l'.todo == l.todo[1..]; } else { assert l'.todo[1..] == l.todo[1..]; LaterShares(l.todo[1..], p); }
  }

  lemma LoadedSwaps(s: State, t: nat, s': State, c: nat, b: Ptr)
    requires Inv(s) && t < |s.threads| && s.threads[t].todo != [] && c < |s.cells| && b != 0
    requires s.threads[t].todo[0] == LoadTry(c, s.cells[c]) && s' == Loaded(s, t, c)
    ensures Swaps(s, s', t, c, LoadedActs(c, s.cells[c].ptr, s.cells[c].stamp + 1), b)
  {
    var acts := LoadedActs(c, s.cells[c].ptr, s.cells[c].stamp + 1);
    if acts != [] { TodoOne(acts[0], b); }
    if b in s.threads[t].handles { HeadMentions(s, t, b); }
  }

  lemma LoadedKeeps(s: State, t: nat, s': State, c: nat)
    requires Inv(s) && t < |s.threads| && s.threads[t].todo != [] && c < |s.cells|
    requires s.threads[t].todo[0] == LoadTry(c, s.cells[c]) && s' == Loaded(s, t, c)
    ensures Inv(s')
  {
    var acts := LoadedActs(c, s.cells[c].ptr, s.cells[c].stamp + 1);
    assert ThreadOk(s, t);
    LoadedFits(s.threads[t], c, s.cells[c].ptr, s.cells[c].stamp + 1);
    forall b | b != 0 ensures Swaps(s, s', t, c, acts, b) { LoadedSwaps(s, t, s', c, b); }
    SwapKeeps(s, s', t, c, acts);
  }

  lemma FlushKeeps(s: State, t: nat, s': State)
    requires Inv(s) && t < |s.threads| && FlushStep(s, t, s')
    ensures Inv(s')
  {
    var l, l' := s.threads[t], s'.threads[t];
    var Flush(c, p, n) := l.todo[0];
    var acts := if s'.cells == s.cells && s' == Go(s, t, Instead(l, [LowerBy(p, n)])) then [LowerBy(p, n)] else [Lower(p)];
    assert ThreadOk(s, t);
    assert WellFormed(l') by { assert l'.todo[1..] == l.todo[1..]; }
    HeadMentions(s, t, p);
    forall b | b != 0 ensures Swaps(s, s', t, c, acts, b) {
      TodoOne(acts[0], b);
      if b in l.handles { HeadMentions(s, t, b); }
    }
    SwapKeeps(s, s', t, c, acts);
  }

  lemma ReleasedFits(l: Local, was: Stamped)
    requires WellFormed(l) && l.todo != []
    ensures WellFormed(Instead(l, Released(was)).(call := Put(l.call)))
  {
    var l' := Instead(l, Released(was)).(call := Put(l.call));
    if was.ptr == 0 { assert l'.todo == l.todo[1..]; } else { assert l'.todo[1..] == l.todo[1..]; }
  }

  lemma ReleasedSwaps(s: State, t: nat, s': State, c: nat, p: Ptr, b: Ptr)
    requires Inv(s) && t < |s.threads| && s.threads[t].todo != [] && Puts(s.threads[t].todo[0], p) && c < |s.cells| && b != 0
    requires s' == Go(s, t, Instead(s.threads[t], Released(s.cells[c])).(call := Put(s.threads[t].call))).(cells := s.cells[c := Stamped(p, 0)])
    ensures Swaps(s, s', t, c, Released(s.cells[c]), b)
  {
    var acts := Released(s.cells[c]);
    if acts != [] { TodoOne(acts[0], b); }
    if b in s.threads[t].handles { HeadMentions(s, t, b); }
  }

  lemma ReleaseKeeps(s: State, t: nat, s': State, c: nat, p: Ptr)
    requires Inv(s) && t < |s.threads| && s.threads[t].todo != [] && Puts(s.threads[t].todo[0], p) && c < |s.cells|
    requires s' == Go(s, t, Instead(s.threads[t], Released(s.cells[c])).(call := Put(s.threads[t].call))).(cells := s.cells[c := Stamped(p, 0)])
    ensures Inv(s')
  {
    assert ThreadOk(s, t);
    ReleasedFits(s.threads[t], s.cells[c]);
    if p != 0 { HeadMentions(s, t, p); }
    forall b | b != 0 ensures Swaps(s, s', t, c, Released(s.cells[c]), b) { ReleasedSwaps(s, t, s', c, p, b); }
    SwapKeeps(s, s', t, c, Released(s.cells[c]));
  }

  lemma CasReadKeeps(s: State, t: nat, s': State)
    requires Inv(s) && t < |s.threads| && CasStep(s, t, s') && s.threads[t].todo[0].CasRead?
    ensures Inv(s')
  {
    var l, l' := s.threads[t], s'.threads[t];
    var CasRead(c, e, p) := l.todo[0];
    var acts := PutLater(p, CasTry(c, Stamped(e, s.cells[c].stamp), p));
    assert ThreadOk(s, t);
    assert WellFormed(l') by { assert l'.todo[1..] == l.todo[1..]; }
    forall b | b != 0 ensures Swaps(s, s', t, c, acts, b) {
      TodoOne(acts[0], b);
      assert ActMentions(acts[0], b) ==> ActMentions(l.todo[0], b);
      if b in l.handles || ActMentions(acts[0], b) { HeadMentions(s, t, b); }
    }
    SwapKeeps(s, s', t, c, acts);
  }

  lemma FailedShares(c: nat, e: Ptr, p: Ptr, b: Ptr)
    requires b != 0
    ensures var acts := Failed(c, e, p);
            && TodoT(acts, b) == (if e == b then 1 else 0)
            && TodoS(acts, b) == (if p == b then 1 else 0)
            && ((exists i :: 0 <= i < |acts| && ActMentions(acts[i], b)) ==> b == e || b == p)
  {
    var x := if p == 0 then [] else [Lower(p)];
    assert Failed(c, e, p) == x + ([LoadRead(c)] + DropLater(e));
    TodoConcat(x, [LoadRead(c)] + DropLater(e), b);
    TodoConcat([LoadRead(c)], DropLater(e), b);
    TodoOne(Lower(p), b);
    TodoOne(LoadRead(c), b);
    TodoOne(DropRef(e), b);
  }

  lemma FailedFits(l: Local, l': Local, c: nat, e: Ptr, p: Ptr)
    requires WellFormed(l) && l.todo != [] && (p != 0 ==> Backed(l, p)) && Has(l.handles, e)
    requires l' == Instead(l, Failed(c, e, p)).(handles := Without(l.handles, e), call := Miss(l.call))
    ensures WellFormed(l')
  {
    if p == 0 {
      assert l'.todo[0] == LoadRead(c) && l'.todo[1..] == DropLater(e) + l.todo[1..];
    } else {
      var after := Failed(c, e, 0);
      assert l'.todo[0] == Lower(p) && l'.todo[1..] == after + l.todo[1..];
      assert Later(after + l.todo[1..]) by { assert Later(after) && Later(l.todo[1..]); }
      TodoConcat(after, l.todo[1..], p);
      FailedShares(c, e, 0, p);
    }
  }

  lemma CasFailKeeps(s: State, t: nat, s': State)
    requires Inv(s) && t < |s.threads| && s.threads[t].todo != [] && s.threads[t].todo[0].CasTry?
    requires var CasTry(c, ex, p) := s.threads[t].todo[0];
             s' == Go(s, t, Instead(s.threads[t], Failed(c, ex.ptr, p)).(
                   handles := Without(s.threads[t].handles, ex.ptr), call := Miss(s.threads[t].call)))
    ensures Inv(s')
  {
    var l, l' := s.threads[t], s'.threads[t];
    var CasTry(c, ex, p) := l.todo[0];
    var e, acts := ex.ptr, Failed(c, ex.ptr, p);
    assert ThreadOk(s, t);
    FailedFits(l, l', c, e, p);
    forall b | b != 0 ensures Swaps(s, s', t, c, acts, b) {
      FailedShares(c, e, p, b);
      if b in l.handles || b == e || b == p { HeadMentions(s, t, b); }
    }
    SwapKeeps(s, s', t, c, acts);
  }

  // ---- fetch-add loops ---------------------------------------------------------------------------

  /** The load, or a compare-exchange that fails. */
  lemma SeenKeeps(s: State, t: nat, s': State, now: Count)
    requires Inv(s) && t < |s.threads| && s' == Go(s, t, s.threads[t].(seen := Some(now)))
    ensures Inv(s')
  {
    var l, l' := s.threads[t], s'.threads[t];
    assert ThreadOk(s, t);
    assert WellFormed(l');
    forall b | b != 0 ensures Settles(s, s', t, 0, b, 0, 0) && FitsAt(s, l, l', b) {
      if Mentions(l', b) { assert Mentions(l, b); }
    }
    ShiftKeeps(s, s', t, 0);
  }

  lemma AfterFits(l: Local, a: Act, now: Count)
    requires WellFormed(l) && l.todo != [] && l.todo[0] == a && IsAdd(a)
    ensures WellFormed(After(l, a, now))
    ensures forall b :: HoldsAlone(After(l, a, now), b) <==> Then(a, Added(a, now)) == [Delete(a.p)] && b == a.p
  {
    var l', acts := After(l, a, now), Then(a, Added(a, now));
    if acts == [] { assert l'.todo == l.todo[1..]; } else { assert l'.todo[1..] == l.todo[1..]; }
  }

  lemma AfterShares(l: Local, a: Act, now: Count, b: Ptr)
    requires WellFormed(l) && l.todo != [] && l.todo[0] == a && IsAdd(a) && b != 0
    ensures var l', c := After(l, a, now), Added(a, now);
            && ShareT(l', b) - ShareT(l, b) == (if b == a.p then c.transient - now.transient else 0)
            && ShareS(l', b) - ShareS(l, b) == (if b == a.p then c.strong - now.strong else 0)
  {
    var acts := Then(a, Added(a, now));
    TodoConcat(acts, l.todo[1..], b);
    if acts != [] { TodoOne(acts[0], b); }
  }

  lemma AfterMentions(l: Local, a: Act, now: Count, b: Ptr)
    requires WellFormed(l) && l.todo != [] && l.todo[0] == a && IsAdd(a) && b != 0
    ensures Mentions(After(l, a, now), b) ==> Mentions(l, b)
  {
    var l', acts := After(l, a, now), Then(a, Added(a, now));
    if b == a.p {
      assert ActMentions(l.todo[0], b);
    } else if Mentions(l', b) && b !in l.handles {
      var i :| 0 <= i < |l'.todo| && ActMentions(l'.todo[i], b);
      if i >= |acts| { assert ActMentions(l.todo[i - |acts| + 1], b); }
    }
  }

  /** An addition whose result nobody checks leaves the thread with a share. */
  lemma AfterBacked(l: Local, a: Act, now: Count)
    requires WellFormed(l) && l.todo != [] && l.todo[0] == a && IsAdd(a) && !a.DropRef? && !a.Cleanup?
    ensures ShareT(After(l, a, now), a.p) >= 1 || ShareS(After(l, a, now), a.p) >= 1
  {
    var l', acts := After(l, a, now), Then(a, Added(a, now));
    LaterShares(l.todo[1..], a.p);
    TodoConcat(acts, l.todo[1..], a.p);
    if acts != [] { TodoOne(acts[0], a.p); }
  }

  lemma AddedBalances(s: State, t: nat, s': State, a: Act, b: Ptr)
    requires Inv(s) && t < |s.threads| && s.threads[t].todo != [] && s.threads[t].todo[0] == a
    requires IsAdd(a) && a.p in s.blocks && s' == AddTo(s, t, a, s.blocks[a.p].count) && b in s.blocks
    ensures b in s'.blocks && Balanced(s', b)
  {
    assert ThreadOk(s, t) && BlockOk(s, b);
    assert s'.threads[t] == After(s.threads[t], a, s.blocks[a.p].count);
    AfterShares(s.threads[t], a, s.blocks[a.p].count, b);
    Rebalance(s, s', t, 0, b);
  }

  /** The counter reaches zero exactly when the thread that added goes on to delete the block. */
  lemma ZeroIffDelete(s: State, t: nat, s': State, a: Act)
    requires Inv(s) && t < |s.threads| && s.threads[t].todo != [] && s.threads[t].todo[0] == a
    requires IsAdd(a) && a.p in s.blocks && s' == AddTo(s, t, a, s.blocks[a.p].count)
    ensures s'.blocks[a.p].count == Count(0, 0) <==> Then(a, Added(a, s.blocks[a.p].count)) == [Delete(a.p)]
  {
    var now := s.blocks[a.p].count;
    assert ThreadOk(s, t);
    assert s'.threads[t] == After(s.threads[t], a, now);
    if Added(a, now) == Count(0, 0) && !a.DropRef? && !a.Cleanup? {
      assert BlockOk(s, a.p);
      forall u | 0 <= u < |s.threads| ensures WellFormed(s'.threads[u]) {
        assert ThreadOk(s, u);
        if u == t { AfterFits(s.threads[t], a, now); }
      }
      AddedBalances(s, t, s', a, a.p);
      ZeroMeansUnused(s', a.p);
      AfterBacked(s.threads[t], a, now);
      assert false;
    }
  }

  lemma AddKeepsThreads(s: State, t: nat, s': State, a: Act)
    requires Inv(s) && t < |s.threads| && s.threads[t].todo != [] && s.threads[t].todo[0] == a
    requires IsAdd(a) && a.p in s.blocks && s' == AddTo(s, t, a, s.blocks[a.p].count)
    ensures forall u {:trigger ThreadOk(s', u)} :: 0 <= u < |s'.threads| ==> ThreadOk(s', u)
  {
    var l, l', p, now := s.threads[t], s'.threads[t], a.p, s.blocks[a.p].count;
    assert l' == After(l, a, now);
    assert ThreadOk(s, t);
    AfterFits(l, a, now);
    forall u | 0 <= u < |s'.threads| ensures ThreadOk(s', u) {
      assert ThreadOk(s, u);
      if u == t {
        forall b | b != 0 && Mentions(l', b) ensures b in s'.blocks && (HoldsAlone(l', b) ==> s'.blocks[b].holder == Some(t)) {
          AfterMentions(l, a, now, b);
        }
      } else if HoldsAlone(s.threads[u], p) {
        assert BlockOk(s, p) && ActMentions(l.todo[0], p) && Mentions(l, p);
        assert ActMentions(s.threads[u].todo[0], p) && Mentions(s.threads[u], p);
        HeldByOne(s, p, t);
        assert false;
      }
    }
  }

  lemma AddKeeps(s: State, t: nat, s': State, a: Act)
    requires Inv(s) && t < |s.threads| && s.threads[t].todo != [] && s.threads[t].todo[0] == a
    requires IsAdd(a) && a.p in s.blocks && s' == AddTo(s, t, a, s.blocks[a.p].count)
    ensures Inv(s')
  {
    var l, now := s.threads[t], s.blocks[a.p].count;
    assert s'.threads[t] == After(l, a, now);
    assert ThreadOk(s, t);
    AfterFits(l, a, now);
    ZeroIffDelete(s, t, s', a);
    forall b | b in s'.blocks ensures BlockOk(s', b) {
      assert BlockOk(s, b);
      AddedBalances(s, t, s', a, b);
    }
    AddKeepsThreads(s, t, s', a);
  }

  // ---- creation and deletion ------------------------------------------------------------------

  /** Nobody mentions a block that does not exist. */
  lemma NoSharesWithout(l: Local, b: Ptr)
    requires WellFormed(l) && b != 0 && !Mentions(l, b)
    ensures ShareT(l, b) == 0 && ShareS(l, b) == 0
  {
    TodoWithout(l.todo, b);
  }

  lemma {:induction false} TodoWithout(todo: seq<Act>, b: Ptr)
    requires forall i :: 0 <= i < |todo| ==> !ActMentions(todo[i], b)
    ensures TodoT(todo, b) == 0 && TodoS(todo, b) == 0
  {
    if todo != [] {
      assert !ActMentions(todo[0], b);
      forall i | 0 <= i < |todo[1..]| ensures !ActMentions(todo[1..][i], b) { assert !ActMentions(todo[i + 1], b); }
      TodoWithout(todo[1..], b);
    }
  }

  lemma MakeKeeps(s: State, t: nat, s': State)
    requires Inv(s) && t < |s.threads| && Make(s, t, s')
    ensures Inv(s')
  {
    var l := s.threads[t];
    var p :| p != 0 && p !in s.blocks
             && s' == Go(s, t, l.(todo := [AddRef(p, true)], call := Making(p))).(blocks := s.blocks[p := Block(Count(0, 0), Some(t))]);
    assert ThreadOk(s, t);
    forall b | b in s'.blocks ensures BlockOk(s', b) { MadeBlock(s, t, s', p, b); }
    forall u | 0 <= u < |s'.threads| ensures ThreadOk(s', u) {
      assert ThreadOk(s, u);
      if u == t {
        forall b | b != 0 && Mentions(s'.threads[t], b) ensures b in s'.blocks && (HoldsAlone(s'.threads[t], b) ==> b == p) {
          if b != p { assert Mentions(l, b); }
        }
      }
    }
  }

  lemma MadeBlock(s: State, t: nat, s': State, p: Ptr, b: Ptr)
    requires Inv(s) && t < |s.threads| && s.threads[t].todo == [] && p != 0 && p !in s.blocks && b in s'.blocks
    requires s' == Go(s, t, s.threads[t].(todo := [AddRef(p, true)], call := Making(p))).(blocks := s.blocks[p := Block(Count(0, 0), Some(t))])
    ensures BlockOk(s', b)
  {
    TodoOne(AddRef(p, true), b);
    if b == p {
      NewBalanced(s, t, s', p);
    } else {
      assert BlockOk(s, b);
      Rebalance(s, s', t, 0, b);
    }
  }

  lemma NewBalanced(s: State, t: nat, s': State, p: Ptr)
    requires Inv(s) && t < |s.threads| && s.threads[t].todo == [] && p != 0 && p !in s.blocks
    requires s' == Go(s, t, s.threads[t].(todo := [AddRef(p, true)], call := Making(p))).(blocks := s.blocks[p := Block(Count(0, 0), Some(t))])
    ensures Balanced(s', p)
  {
    forall u | 0 <= u < |s'.threads| ensures ShareT(s'.threads[u], p) == 0 && ShareS(s'.threads[u], p) == 0 {
      assert ThreadOk(s, u);
      NoSharesWithout(s.threads[u], p);
      if u == t { TodoOne(AddRef(p, true), p); }
    }
    SumAllZero(ThreadsT(s'.threads, p));
    SumAllZero(ThreadsS(s'.threads, p));
    SumAllZero(CellsT(s'.cells, p));
    SumAllZero(CellsS(s'.cells, p));
  }

  /** The thread that deletes p has no other use for it. */
  lemma DeleterForgets(l: Local, p: Ptr, b: Ptr)
    requires WellFormed(l) && l.todo != [] && l.todo[0] == Delete(p) && p != 0 && b != 0 && ShareT(l, p) == 0
    requires Mentions(l.(todo := l.todo[1..]), b)
    ensures Mentions(l, b) && b != p && !HoldsAlone(l.(todo := l.todo[1..]), b)
  {
    var l' := l.(todo := l.todo[1..]);
    LaterShares(l.todo[1..], p);
    if b !in l.handles {
      var i :| 0 <= i < |l'.todo| && ActMentions(l'.todo[i], b);
      assert ActMentions(l.todo[i + 1], b);
    }
  }

  lemma DeleteKeeps(s: State, t: nat, s': State)
    requires Inv(s) && t < |s.threads| && DeleteStep(s, t, s')
    ensures Inv(s')
  {
    var l, l', p := s.threads[t], s'.threads[t], s.threads[t].todo[0].p;
    assert ThreadOk(s, t) && BlockOk(s, p) && ActMentions(l.todo[0], p) && Mentions(l, p);
    forall u | 0 <= u < |s.threads| ensures WellFormed(s.threads[u]) { assert ThreadOk(s, u); }
    ZeroMeansUnused(s, p);
    forall b | b in s'.blocks ensures BlockOk(s', b) {
      assert BlockOk(s, b);
      Rebalance(s, s', t, 0, b);
    }
    forall u | 0 <= u < |s'.threads| ensures ThreadOk(s', u) {
      assert ThreadOk(s, u);
      if u == t {
        forall b | b != 0 && Mentions(l', b) ensures Mentions(l, b) && b != p && !HoldsAlone(l', b) { DeleterForgets(l, p, b); }
      } else if Mentions(s.threads[u], p) {
        HeldByOne(s, p, u);
        assert false;
      }
    }
  }

  ghost predicate Gives(s: State, t: nat, s': State, u: nat, p: Ptr)
  {
    && t < |s.threads| && u < |s.threads| && u != t && p in s.threads[t].handles
    && var l, r := s.threads[t], s.threads[u];
       s' == s.(threads := s.threads[t := l.(handles := l.handles - multiset{p})][u := r.(handles := r.handles + multiset{p})])
  }

  lemma GiveKeeps(s: State, t: nat, s': State)
    requires Inv(s) && t < |s.threads| && Give(s, t, s')
    ensures Inv(s')
  {
    var l := s.threads[t];
    var u, p :| 0 <= u < |s.threads| && u != t && p in l.handles && (var r := s.threads[u];
      s' == s.(threads := s.threads[t := l.(handles := l.handles - multiset{p})][u := r.(handles := r.handles + multiset{p})]));
    assert Gives(s, t, s', u, p);
    forall b | b in s'.blocks ensures BlockOk(s', b) {
      assert BlockOk(s, b);
      GiveBalances(s, s', t, u, p, b);
    }
    forall v | 0 <= v < |s'.threads| ensures ThreadOk(s', v) {
      GivenThread(s, t, s', u, p, v);
    }
  }

  lemma GivenThread(s: State, t: nat, s': State, u: nat, p: Ptr, v: nat)
    requires Inv(s) && Gives(s, t, s', u, p) && s.threads[t].todo == [] && v < |s.threads|
    ensures ThreadOk(s', v)
  {
    assert ThreadOk(s, t) && ThreadOk(s, v) && Mentions(s.threads[t], p) && p != 0;
    var l, l' := s.threads[v], s'.threads[v];
    GivenFits(l, l');
    forall b | b != 0 && Mentions(l', b) ensures Mentions(l, b) || b == p {
      if i :| 0 <= i < |l'.todo| && ActMentions(l'.todo[i], b) { assert ActMentions(l.todo[i], b); }
    }
    if HoldsAlone(l', p) { assert ActMentions(l.todo[0], p) && Mentions(l, p); }
  }

  lemma GivenFits(l: Local, l': Local)
    requires WellFormed(l) && 0 !in l'.handles && l' == l.(handles := l'.handles)
    requires l.todo == [] || (forall b :: l.handles[b] <= l'.handles[b])
    ensures WellFormed(l') && forall b :: HoldsAlone(l', b) <==> HoldsAlone(l, b)
  {
  }

  lemma GiveBalances(s: State, s': State, t: nat, u: nat, p: Ptr, b: Ptr)
    requires Gives(s, t, s', u, p)
    requires b in s.blocks && Balanced(s, b)
    ensures Balanced(s', b)
  {
    var x, x' := ThreadsT(s.threads, b), ThreadsT(s'.threads, b);
    assert x' == x[t := x'[t]][u := x'[u]];
    SumUpdate(x, t, x'[t]);
    SumUpdate(x[t := x'[t]], u, x'[u]);
    assert ThreadsS(s'.threads, b) == ThreadsS(s.threads, b);
  }

  // ---- the whole system ---------------------------------------------------------------------------

  lemma StepKeeps(s: State, t: nat, s': State)
    requires Inv(s) && ThreadStep(s, t, s')
    ensures Inv(s')
  {
    var l := s.threads[t];
    if {
      case Call(s, t, s') => CallKeeps(s, t, s');
      case Make(s, t, s') => MakeKeeps(s, t, s');
      case Give(s, t, s') => GiveKeeps(s, t, s');
      case DeleteStep(s, t, s') => DeleteKeeps(s, t, s');
      case AddStep(s, t, s') =>
        var now := s.blocks[l.todo[0].p].count;
        if s' == Go(s, t, l.(seen := Some(now))) { SeenKeeps(s, t, s', now); } else { AddKeeps(s, t, s', l.todo[0]); }
      case LoadStep(s, t, s') => LoadKeeps(s, t, s');
      case FlushStep(s, t, s') => FlushKeeps(s, t, s');
      case ExchangeStep(s, t, s') => ReleaseKeeps(s, t, s', l.todo[0].c, l.todo[0].p);
      case CasStep(s, t, s') => CasKeeps(s, t, s');
    }
  }

  lemma CasKeeps(s: State, t: nat, s': State)
    requires Inv(s) && t < |s.threads| && CasStep(s, t, s')
    ensures Inv(s')
  {
    var l := s.threads[t];
    if l.todo[0].CasRead? {
      CasReadKeeps(s, t, s');
    } else {
      var CasTry(c, ex, p) := l.todo[0];
      if s' == Go(s, t, Instead(l, Failed(c, ex.ptr, p)).(handles := Without(l.handles, ex.ptr), call := Miss(l.call))) {
        CasFailKeeps(s, t, s');
      } else {
        ReleaseKeeps(s, t, s', c, p);
      }
    }
  }

  lemma InitHolds(s: State)
    requires Init(s)
    ensures Inv(s)
  {
    forall t | 0 <= t < |s.threads| ensures ThreadOk(s, t) {}
  }

  lemma {:induction false} RunKeeps(run: seq<State>, n: nat)
    requires IsRun(run) && n < |run|
    ensures Inv(run[n])
  {
    if n == 0 {
      InitHolds(run[0]);
    } else {
      RunKeeps(run, n - 1);
      assert Next(run[n - 1], run[n]);
      var t :| ThreadStep(run[n - 1], t, run[n]);
      StepKeeps(run[n - 1], t, run[n]);
    }
  }

  // ---- what the counts are for ----------------------------------------------------------------------

  /** No thread ever touches a block that is gone: its handles, its acts and all cells point at live blocks. */
  lemma NothingDangles(run: seq<State>, n: nat)
    requires IsRun(run) && n < |run|
    ensures forall t, b :: 0 <= t < |run[n].threads| && b != 0 && Mentions(run[n].threads[t], b) ==> b in run[n].blocks
    ensures forall c :: 0 <= c < |run[n].cells| && run[n].cells[c].ptr != 0 ==> run[n].cells[c].ptr in run[n].blocks
  {
    RunKeeps(run, n);
    forall t, b | 0 <= t < |run[n].threads| && b != 0 && Mentions(run[n].threads[t], b) ensures b in run[n].blocks {
      assert ThreadOk(run[n], t);
    }
  }

  /** A block is deleted by one thread, when no cell points at it and nobody else mentions it. */
  lemma DeletedAlone(run: seq<State>, n: nat, t: nat, u: nat, b: Ptr)
    requires IsRun(run) && n < |run| && t < |run[n].threads| && u < |run[n].threads|
    requires run[n].threads[t].todo != [] && run[n].threads[t].todo[0] == Delete(b)
    ensures b in run[n].blocks && (Mentions(run[n].threads[u], b) ==> u == t)
    ensures b !in run[n].threads[t].handles && forall c :: 0 <= c < |run[n].cells| ==> run[n].cells[c].ptr != b
  {
    var s := run[n];
    RunKeeps(run, n);
    assert ThreadOk(s, t) && ActMentions(s.threads[t].todo[0], b) && Mentions(s.threads[t], b);
    assert BlockOk(s, b);
    HeldByOne(s, b, t);
    if Mentions(s.threads[u], b) { HeldByOne(s, b, u); }
    forall v | 0 <= v < |s.threads| ensures WellFormed(s.threads[v]) { assert ThreadOk(s, v); }
    ZeroMeansUnused(s, b);
    LaterShares(s.threads[t].todo[1..], b);
  }

  /** Nothing leaks: when every call has returned, a block exists only while a handle or a cell refers to it. */
  lemma NothingLeaks(run: seq<State>, n: nat, b: Ptr)
    requires IsRun(run) && n < |run| && b in run[n].blocks
    requires forall t :: 0 <= t < |run[n].threads| ==> run[n].threads[t].todo == []
    ensures (exists t :: 0 <= t < |run[n].threads| && b in run[n].threads[t].handles)
            || (exists c :: 0 <= c < |run[n].cells| && run[n].cells[c].ptr == b)
  {
    var s := run[n];
    RunKeeps(run, n);
    assert BlockOk(s, b);
    if (forall t :: 0 <= t < |s.threads| ==> b !in s.threads[t].handles) && (forall c :: 0 <= c < |s.cells| ==> s.cells[c].ptr != b) {
      SumAllZero(ThreadsT(s.threads, b));
      SumAllZero(ThreadsS(s.threads, b));
      SumAllZero(CellsT(s.cells, b));
      SumAllZero(CellsS(s.cells, b));
      assert false;
    }
  }

  /** What the two counts of a block mean when every call has returned. */
  lemma QuietCounts(run: seq<State>, n: nat, b: Ptr)
    requires IsRun(run) && n < |run| && b in run[n].blocks
    requires forall t :: 0 <= t < |run[n].threads| ==> run[n].threads[t].todo == []
    ensures run[n].blocks[b].count.strong == Sum(CellsS(run[n].cells, b))
    ensures run[n].blocks[b].count.transient + Sum(CellsT(run[n].cells, b)) == Sum(seq(|run[n].threads|, t requires 0 <= t < |run[n].threads| => run[n].threads[t].handles[b]))
  {
    var s := run[n];
    RunKeeps(run, n);
    assert BlockOk(s, b);
    SumAllZero(ThreadsS(s.threads, b));
    assert ThreadsT(s.threads, b) == seq(|s.threads|, t requires 0 <= t < |s.threads| => s.threads[t].handles[b]);
  }
}

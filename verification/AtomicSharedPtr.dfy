/**
Split reference counting (src/exe/lf/memory/atomic_shared_ptr.hpp).  A cell holds
a pointer with a stamp, which counts the loads since the pointer was stored; a
block holds a pair (transient, strong), where transient may be negative.  Any
number of threads work on any number of cells; each atomic load and each
compare-exchange is one step, and the weak one may fail spuriously.  Counts and
stamps are unbounded, which stands for the side condition that no stamp reaches
2^16 and no count leaves 32 bits.
*/
module AtomicSharedPtr {

  type Ptr = nat                 // 0 is nullptr

  datatype Option<+X> = None | Some(value: X)

  datatype Stamped = Stamped(ptr: Ptr, stamp: nat)

  datatype Count = Count(transient: int, strong: int)

  /** `holder` is history: the thread that creates the block, or that is about to delete it. */
  datatype Block = Block(count: Count, holder: Option<nat>)

  /** What a thread still has to do in its call, one atomic operation at a time. */
  datatype Act =
      // fetch-add loops on the counter of a block
    | AddRef(p: Ptr, isNew: bool)               // transient + 1, for a new handle
    | DropRef(p: Ptr)                           // transient - 1, the handle is gone
    | RaiseFor(p: Ptr, next: Act)               // strong + 1, then put p into a cell
    | Lower(p: Ptr)                             // strong - 1
    | Cleanup(p: Ptr, n: nat)                   // transient + n, strong - 1: a cell let go of p
    | RaiseBy(p: Ptr, n: nat, c: nat)           // transient + n, strong + 1, before the flush
    | LowerBy(p: Ptr, n: nat)                   // transient - n, strong - 1, the flush failed
      // operations on a cell
    | LoadRead(c: nat)
    | LoadTry(c: nat, seen: Stamped)
    | Flush(c: nat, p: Ptr, n: nat)
    | Exchange(c: nat, p: Ptr)
    | CasRead(c: nat, e: Ptr, p: Ptr)
    | CasTry(c: nat, ex: Stamped, p: Ptr)
      // delete block
    | Delete(p: Ptr)

  /** Copy, Reset or destruction, Load, Store (also the cell's destructor) and CompareExchangeWeak. */
  datatype Op = Copy(p: Ptr) | Reset(p: Ptr) | Load(c: nat) | Store(c: nat, p: Ptr) | Cas(c: nat, e: Ptr, p: Ptr)

  /**
  History of the call of a thread: its arguments, and once it has taken effect what it answers.
  `p` is the pointer of the handle that Load returns or that a failed compare-exchange puts into `expected`.
  */
  datatype Stage = Resting | Making(p: Ptr) | Made(p: Ptr) | Calling(op: Op) | Missed(op: Op) | Settled(op: Op, ok: bool, p: Ptr)

  /** `seen` is the counter last read by the fetch-add in progress; `handles` the SharedPtrs of the thread. */
  datatype Local = Local(todo: seq<Act>, seen: Option<Count>, handles: multiset<Ptr>, call: Stage)

  datatype State = State(blocks: map<Ptr, Block>, cells: seq<Stamped>, threads: seq<Local>)

  const FLUSH_ABOVE := 10000

  ghost predicate Init(s: State)
  {
    && s.blocks == map[]
    && (forall c :: 0 <= c < |s.cells| ==> s.cells[c] == Stamped(0, 0))
    && (forall t :: 0 <= t < |s.threads| ==> s.threads[t] == Local([], None, multiset{}, Resting))
  }

  function Go(s: State, t: nat, l: Local): State
    requires t < |s.threads|
  {
    s.(threads := s.threads[t := l])
  }

  // ---- starting an operation -------------------------------------------------

  /** The destructor of a by-value parameter. */
  function DropLater(p: Ptr): seq<Act>
  {
    if p == 0 then [] else [DropRef(p)]
  }

  function PutLater(p: Ptr, put: Act): seq<Act>
  {
    if p == 0 then [put] else [RaiseFor(p, put)]
  }

  /** A handle that is null costs nothing; another one must be the thread's own. */
  predicate Has(h: multiset<Ptr>, p: Ptr)
  {
    p != 0 ==> p in h
  }

  function Without(h: multiset<Ptr>, p: Ptr): multiset<Ptr>
  {
    if p == 0 then h else h - multiset{p}
  }

  predicate Callable(s: State, l: Local, op: Op)
  {
    l.todo == [] &&
    match op
    case Copy(p) => p != 0 && p in l.handles
    case Reset(p) => p != 0 && p in l.handles
    case Load(c) => c < |s.cells|
    case Store(c, p) => c < |s.cells| && Has(l.handles, p)
    case Cas(c, e, p) => c < |s.cells| && Has(l.handles, p) && Has(Without(l.handles, p), e)
  }

  /** By-value parameters become part of the call. */
  function Started(l: Local, op: Op): Local
  {
    var l' := l.(call := Calling(op));
    match op
    case Copy(p) => l'.(todo := [AddRef(p, false)])
    case Reset(p) => l'.(todo := [DropRef(p)], handles := Without(l.handles, p))
    case Load(c) => l'.(todo := [LoadRead(c)])
    case Store(c, p) => l'.(todo := PutLater(p, Exchange(c, p)) + DropLater(p), handles := Without(l.handles, p))
    case Cas(c, e, p) => l'.(todo := [CasRead(c, e, p)] + DropLater(p), handles := Without(l.handles, p))
  }

  ghost predicate Call(s: State, t: nat, s': State)
    requires t < |s.threads|
  {
    exists op :: Callable(s, s.threads[t], op) && s' == Go(s, t, Started(s.threads[t], op))
  }

  /** MakeShared: the block starts with counts (0, 0). */
  ghost predicate Make(s: State, t: nat, s': State)
    requires t < |s.threads|
  {
    var l := s.threads[t];
    && l.todo == []
    && exists p :: p != 0 && p !in s.blocks &&
         s' == Go(s, t, l.(todo := [AddRef(p, true)], call := Making(p))).(blocks := s.blocks[p := Block(Count(0, 0), Some(t))])
  }

  /** A handle moves to another thread. */
  ghost predicate Give(s: State, t: nat, s': State)
    requires t < |s.threads|
  {
    var l := s.threads[t];
    && l.todo == []
    && exists u, p :: 0 <= u < |s.threads| && u != t && p in l.handles &&
         var r := s.threads[u];
         s' == s.(threads := s.threads[t := l.(handles := l.handles - multiset{p})][u := r.(handles := r.handles + multiset{p})])
  }

  // ---- fetch-add loops on a block -----------------------------------------------

  predicate IsAdd(a: Act)
  {
    a.AddRef? || a.DropRef? || a.RaiseFor? || a.Lower? || a.Cleanup? || a.RaiseBy? || a.LowerBy?
  }

  /** The counter after the addition. */
  function Added(a: Act, c: Count): Count
    requires IsAdd(a)
  {
    match a
    case AddRef(_, _) => Count(c.transient + 1, c.strong)
    case DropRef(_) => Count(c.transient - 1, c.strong)
    case RaiseFor(_, _) => Count(c.transient, c.strong + 1)
    case Lower(_) => Count(c.transient, c.strong - 1)
    case Cleanup(_, n) => Count(c.transient + n, c.strong - 1)
    case RaiseBy(_, n, _) => Count(c.transient + n, c.strong + 1)
    case LowerBy(_, n) => Count(c.transient - n, c.strong - 1)
  }

  /** What follows the addition; only Reset and CleanupStampedBlock look at the result. */
  function Then(a: Act, c: Count): seq<Act>
    requires IsAdd(a)
  {
    match a
    case RaiseFor(_, next) => [next]
    case RaiseBy(p, n, cell) => [Flush(cell, p, n)]
    case DropRef(p) => if c == Count(0, 0) then [Delete(p)] else []
    case Cleanup(p, _) => if c == Count(0, 0) then [Delete(p)] else []
    case _ => []
  }

  ghost predicate AddStep(s: State, t: nat, s': State)
    requires t < |s.threads|
  {
    var l := s.threads[t];
    && l.todo != [] && IsAdd(l.todo[0])
    && var a := l.todo[0];
       && a.p in s.blocks
       && var now := s.blocks[a.p].count;
          || s' == Go(s, t, l.(seen := Some(now)))              // the load, or a failed compare-exchange
          || (l.seen == Some(now) && s' == AddTo(s, t, a, now))
  }

  /** A new handle exists, or a handle is gone. */
  function Counted(call: Stage): Stage
  {
    match call
    case Making(p) => Made(p)
    case Calling(Copy(p)) => Settled(call.op, true, p)
    case Calling(Reset(p)) => Settled(call.op, true, 0)
    case _ => call
  }

  /** The local state after a successful addition. */
  function After(l: Local, a: Act, now: Count): Local
    requires l.todo != [] && IsAdd(a)
  {
    Local(Then(a, Added(a, now)) + l.todo[1..], None, if a.AddRef? then l.handles + multiset{a.p} else l.handles,
          if a.AddRef? || a.DropRef? then Counted(l.call) else l.call)
  }

  /** The compare-exchange succeeds. */
  function AddTo(s: State, t: nat, a: Act, now: Count): State
    requires t < |s.threads| && s.threads[t].todo != [] && IsAdd(a) && a.p in s.blocks
  {
    var c := Added(a, now);
    var holder := if Then(a, c) == [Delete(a.p)] then Some(t) else None;
    Go(s, t, After(s.threads[t], a, now)).(blocks := s.blocks[a.p := Block(c, holder)])
  }

  /** delete block. */
  ghost predicate DeleteStep(s: State, t: nat, s': State)
    requires t < |s.threads|
  {
    var l := s.threads[t];
    && l.todo != [] && l.todo[0].Delete? && l.todo[0].p in s.blocks
    && s' == Go(s, t, l.(todo := l.todo[1..])).(blocks := s.blocks - {l.todo[0].p})
  }

  // ---- operations on a cell --------------------------------------------------------

  function LoadedActs(c: nat, p: Ptr, n: nat): seq<Act>
  {
    if n > FLUSH_ABOVE && p != 0 then [RaiseBy(p, n, c)] else []
  }

  /** The thread's first act is replaced by others. */
  function Instead(l: Local, acts: seq<Act>): Local
    requires l.todo != []
  {
    l.(todo := acts + l.todo[1..])
  }

  /** FetchIncrement on the cell, then perhaps TryUpdateTransient. */
  ghost predicate LoadStep(s: State, t: nat, s': State)
    requires t < |s.threads|
  {
    var l := s.threads[t];
    && l.todo != [] && (l.todo[0].LoadRead? || l.todo[0].LoadTry?)
    && var c := l.todo[0].c;
       c < |s.cells| &&
       (|| s' == Go(s, t, Instead(l, [LoadTry(c, s.cells[c])]))
        || (l.todo[0] == LoadTry(c, s.cells[c]) && s' == Loaded(s, t, c)))
  }

  function Loaded(s: State, t: nat, c: nat): State
    requires t < |s.threads| && s.threads[t].todo != [] && c < |s.cells|
  {
    var l, now := s.threads[t], s.cells[c];
    var n := now.stamp + 1;
    Go(s, t, Instead(l, LoadedActs(c, now.ptr, n)).(handles := With(l.handles, now.ptr), call := Got(l.call, now.ptr))).(
      cells := s.cells[c := Stamped(now.ptr, n)])
  }

  /** The handle that Load returns, or that replaces `expected`. */
  function Got(call: Stage, p: Ptr): Stage
  {
    match call
    case Calling(op) => Settled(op, true, p)
    case Missed(op) => Settled(op, false, p)
    case _ => call
  }

  function With(h: multiset<Ptr>, p: Ptr): multiset<Ptr>
  {
    if p == 0 then h else h + multiset{p}
  }

  /** The compare-exchange of TryUpdateTransient. */
  ghost predicate FlushStep(s: State, t: nat, s': State)
    requires t < |s.threads|
  {
    var l := s.threads[t];
    && l.todo != [] && l.todo[0].Flush?
    && var Flush(c, p, n) := l.todo[0];
       c < |s.cells| &&
       (|| s' == Go(s, t, Instead(l, [LowerBy(p, n)]))
        || (s.cells[c] == Stamped(p, n) && s' == Go(s, t, Instead(l, [Lower(p)])).(cells := s.cells[c := Stamped(p, 0)])))
  }

  ghost predicate ExchangeStep(s: State, t: nat, s': State)
    requires t < |s.threads|
  {
    var l := s.threads[t];
    && l.todo != [] && l.todo[0].Exchange?
    && var Exchange(c, p) := l.todo[0];
       c < |s.cells| && s' == Go(s, t, Instead(l, Released(s.cells[c])).(call := Put(l.call))).(cells := s.cells[c := Stamped(p, 0)])
  }

  /** Store and a successful compare-exchange take effect. */
  function Put(call: Stage): Stage
  {
    if call.Calling? then Settled(call.op, true, 0) else call
  }

  ghost predicate CasStep(s: State, t: nat, s': State)
    requires t < |s.threads|
  {
    var l := s.threads[t];
    l.todo != [] &&
    match l.todo[0]
    case CasRead(c, e, p) =>
      c < |s.cells| && s' == Go(s, t, Instead(l, PutLater(p, CasTry(c, Stamped(e, s.cells[c].stamp), p))))
    case CasTry(c, ex, p) =>
      c < |s.cells| &&
      (|| (s.cells[c] == ex && s' == Go(s, t, Instead(l, Released(ex)).(call := Put(l.call))).(cells := s.cells[c := Stamped(p, 0)]))
       || s' == Go(s, t, Instead(l, Failed(c, ex.ptr, p)).(handles := Without(l.handles, ex.ptr), call := Miss(l.call))))
    case _ => false
  }

  function Miss(call: Stage): Stage
  {
    if call.Calling? then Missed(call.op) else call
  }

  /** CleanupStampedBlock. */
  function Released(was: Stamped): seq<Act>
  {
    if was.ptr == 0 then [] else [Cleanup(was.ptr, was.stamp)]
  }

  /** The failure branch of CompareExchangeWeak: undo, then `expected = Load()`. */
  function Failed(c: nat, e: Ptr, p: Ptr): seq<Act>
  {
    (if p == 0 then [] else [Lower(p)]) + [LoadRead(c)] + DropLater(e)
  }

  // ---- the transition system ---------------------------------------------------------

  ghost predicate ThreadStep(s: State, t: nat, s': State)
  {
    t < |s.threads| &&
    (|| Call(s, t, s') || Make(s, t, s') || Give(s, t, s')
     || AddStep(s, t, s') || DeleteStep(s, t, s')
     || LoadStep(s, t, s') || FlushStep(s, t, s') || ExchangeStep(s, t, s') || CasStep(s, t, s'))
  }

  ghost predicate Next(s: State, s': State)
  {
    exists t :: ThreadStep(s, t, s')
  }

  ghost predicate IsRun(run: seq<State>)
  {
    && |run| > 0 && Init(run[0])
    && forall i :: 0 < i < |run| ==> Next(run[i - 1], run[i])
  }
}

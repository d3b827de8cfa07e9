/**
The strand (src/exe/fiber/sync/strand.hpp): flat combining over one tagged word.
Any number of fibers call `Combine`; every atomic load and compare-exchange,
every access to a waiter and every run of a critical section is one step.
Waiters live on the stacks of the fibers that wait, so an address may be used
again by a later call.
*/
module Strand {

  type Addr = nat                // 0 is nullptr
  type Fid = nat

  datatype Option<+X> = None | Some(value: X)

  /** The four states of waiters_head_. */
  datatype Word = Null | Dummy | Busy(a: Addr) | Free(a: Addr)

  /** StripBusyBit, with the empty list for the dummy. */
  function Strip(w: Word): Addr
  {
    if w.Busy? || w.Free? then w.a else 0
  }

  /** Where a waiter is (history). */
  datatype Role =
    | Private                    // not shared: before the push, or of an owner
    | Pending(i: nat)            // in the list that hangs off the word
    | Batched(u: Fid, j: nat)    // in the batch that fiber u processes
    | Released                   // scheduled

  datatype Waiter = Waiter(fiber: Fid, next: Addr, role: Role, runs: nat)

  datatype Pc =
    | Idle
      // Combine, up to the suspension
    | FirstLoad
    | FirstCas
      // the awaiter
    | AwaitLoad
    | AwaitTry(was: Word)        // the loop body, on the value last seen
    | AwaitPush(was: Word)
      // resumed
    | Waiting
    | Check
    | CheckCas(was: Word)
    | RunOwn
      // ProcessBatch
    | FetchLoad
    | FetchTry(seen: Word)
    | BatchNext
    | BatchRun(next: Addr)
    | EndLoad
    | EndTry(seen: Word)
    | BatchSchedule(next: Addr)
    | Leave

  /** `me` is the waiter of the call, `cur` the batch's current waiter, `todo` (history) the batch, `cur` last. */
  datatype Local = Local(pc: Pc, me: Addr, cur: Addr, todo: seq<Addr>)

  datatype Mem = Mem(
    head: Word,
    waiters: map<Addr, Waiter>,  // the waiters of calls in progress
    // history
    pend: seq<Addr>,             // the list off the word, newest last
    owner: Option<Fid>,          // the combiner
    heir: Addr)                  // the last waiter of the batch that left a free list

  datatype State = State(m: Mem, fibers: map<Fid, Local>)

  ghost predicate Init(s: State)
  {
    && s.m == Mem(Null, map[], [], None, 0)
    && forall f :: f in s.fibers ==> s.fibers[f] == Local(Idle, 0, 0, [])
  }

  function SetWaiter(m: Mem, a: Addr, w: Waiter): Mem
  {
    m.(waiters := m.waiters[a := w])
  }

  function Top(s: seq<Addr>): Addr
  {
    if s == [] then 0 else s[|s| - 1]
  }

  function DropTop(s: seq<Addr>): seq<Addr>
  {
    if s == [] then [] else s[..|s| - 1]
  }

  /** The batch of f is the list that hung off the word. */
  function Batch(m: Mem, f: Fid): map<Addr, Waiter>
  {
    map a | a in m.waiters ::
      if m.waiters[a].role.Pending? then m.waiters[a].(role := Batched(f, m.waiters[a].role.i)) else m.waiters[a]
  }

  // ---- Combine: entry and exit ---------------------------------------------

  /** `Waiter waiter(...)` at any address that no running call uses. */
  ghost predicate Enter(m: Mem, f: Fid, l: Local, m': Mem, l': Local)
  {
    && l.pc == Idle && l'.me != 0 && l'.me !in m.waiters
    && l' == Local(FirstLoad, l'.me, 0, [])
    && m' == SetWaiter(m, l'.me, Waiter(f, 0, Private, 0))
  }

  ghost predicate Exit(m: Mem, l: Local, m': Mem, l': Local)
  {
    && l.pc == Leave
    && l' == Local(Idle, 0, 0, [])
    && m' == m.(waiters := m.waiters - {l.me})
  }

  // ---- reads, and compare-exchanges that fail ---------------------------------

  ghost predicate Read(m: Mem, l: Local, pc': Pc)
  {
    match l.pc
    case FirstLoad => pc' == if m.head == Null then FirstCas else AwaitLoad
    case FirstCas => m.head != Null && pc' == AwaitLoad
    case AwaitLoad => pc' == AwaitTry(m.head)
    case AwaitTry(was) => (was == Null || was.Free?) && m.head != was && pc' == AwaitTry(m.head)
    case AwaitPush(was) => m.head != was && pc' == AwaitTry(m.head)
    case Waiting => l.me in m.waiters && m.waiters[l.me].role == Released && pc' == Check
    case Check => pc' == if m.head.Free? then CheckCas(m.head) else Leave
    case CheckCas(was) => m.head != was && pc' == Leave
    case FetchLoad => pc' == FetchTry(m.head)
    case FetchTry(seen) => m.head != seen && pc' == FetchTry(m.head)
    case BatchNext => l.cur in m.waiters && pc' == BatchRun(m.waiters[l.cur].next)
    case EndLoad => pc' == EndTry(m.head)
    case EndTry(seen) => m.head != seen && pc' == EndTry(m.head)
    case _ => false
  }

  // ---- becoming the combiner ---------------------------------------------------

  /** CAS null -> dummy, on the fast path or in the awaiter (which then schedules the fiber itself). */
  ghost predicate Claim(m: Mem, f: Fid, l: Local, m': Mem, l': Local)
  {
    && (l.pc == FirstCas || l.pc == AwaitTry(Null)) && m.head == Null
    && l' == l.(pc := RunOwn)
    && m' == m.(head := Dummy, owner := Some(f))
  }

  /** CAS free list -> dummy, in the awaiter or by a released waiter. */
  ghost predicate TakeOver(m: Mem, f: Fid, l: Local, m': Mem, l': Local)
  {
    && ((l.pc.AwaitTry? && l.pc.was.Free?) || l.pc.CheckCas?) && m.head == l.pc.was
    && l' == l.(pc := if l.pc.AwaitTry? then RunOwn else BatchNext, cur := Strip(m.head), todo := m.pend)
    && m' == m.(head := Dummy, owner := Some(f), heir := 0, pend := [], waiters := Batch(m, f))
  }

  // ---- joining the list -----------------------------------------------------------

  ghost predicate SetNext(m: Mem, l: Local, m': Mem, l': Local)
  {
    && l.pc.AwaitTry? && (l.pc.was == Dummy || l.pc.was.Busy?) && l.me in m.waiters
    && l' == l.(pc := AwaitPush(l.pc.was))
    && m' == SetWaiter(m, l.me, m.waiters[l.me].(next := Strip(l.pc.was)))
  }

  ghost predicate Join(m: Mem, l: Local, m': Mem, l': Local)
  {
    && l.pc.AwaitPush? && m.head == l.pc.was && l.me in m.waiters
    && l' == l.(pc := Waiting)
    && m' == SetWaiter(m, l.me, m.waiters[l.me].(role := Pending(|m.pend|))).(
                head := Busy(l.me), pend := m.pend + [l.me])
  }

  // ---- combining -----------------------------------------------------------------

  /** waiter.RunTask() of the fiber's own waiter. */
  ghost predicate OwnTask(m: Mem, l: Local, m': Mem, l': Local)
  {
    && l.pc == RunOwn && l.me in m.waiters
    && l' == l.(pc := if l.cur == 0 then FetchLoad else BatchNext)
    && m' == SetWaiter(m, l.me, m.waiters[l.me].(runs := m.waiters[l.me].runs + 1))
  }

  /** ProcessBatch(nullptr): CAS dummy -> null and return, or CAS list -> dummy. */
  ghost predicate Fetch(m: Mem, f: Fid, l: Local, m': Mem, l': Local)
  {
    && l.pc.FetchTry? && m.head == l.pc.seen
    && if m.head == Dummy then
         && l' == l.(pc := Leave)
         && m' == m.(head := Null, owner := None)
       else
         && l' == l.(pc := BatchNext, cur := Strip(m.head), todo := m.pend)
         && m' == m.(head := Dummy, pend := [], waiters := Batch(m, f))
  }

  /** waiter->RunTask() of a waiter of the batch. */
  ghost predicate BatchTask(m: Mem, l: Local, m': Mem, l': Local)
  {
    var n := l.cur;
    && l.pc.BatchRun? && n in m.waiters
    && l' == l.(pc := if l.pc.next == 0 then EndLoad else BatchSchedule(l.pc.next))
    && m' == SetWaiter(m, n, m.waiters[n].(runs := m.waiters[n].runs + 1))
  }

  /** End of the batch: CAS dummy -> null, or clear the busy bit and leave the list to the last waiter. */
  ghost predicate HandOver(m: Mem, l: Local, m': Mem, l': Local)
  {
    && l.pc.EndTry? && m.head == l.pc.seen
    && l' == l.(pc := BatchSchedule(0))
    && m' == (if m.head == Dummy then m.(head := Null, owner := None)
              else m.(head := Free(Strip(m.head)), owner := None, heir := l.cur))
  }

  /** waiter->Schedule(). */
  ghost predicate Schedule(m: Mem, l: Local, m': Mem, l': Local)
  {
    var n := l.cur;
    && l.pc.BatchSchedule? && n in m.waiters
    && l' == l.(pc := if l.pc.next == 0 then Leave else BatchNext, cur := l.pc.next, todo := DropTop(l.todo))
    && m' == SetWaiter(m, n, m.waiters[n].(role := Released))
  }

  ghost predicate Action(m: Mem, f: Fid, l: Local, m': Mem, l': Local)
  {
    || Enter(m, f, l, m', l') || Exit(m, l, m', l')
    || (m' == m && l' == l.(pc := l'.pc) && Read(m, l, l'.pc))
    || Claim(m, f, l, m', l') || TakeOver(m, f, l, m', l')
    || SetNext(m, l, m', l') || Join(m, l, m', l')
    || OwnTask(m, l, m', l') || Fetch(m, f, l, m', l') || BatchTask(m, l, m', l')
    || HandOver(m, l, m', l') || Schedule(m, l, m', l')
  }

  ghost predicate FiberStep(s: State, f: Fid, s': State)
  {
    && f in s.fibers && f in s'.fibers
    && s'.fibers == s.fibers[f := s'.fibers[f]]
    && Action(s.m, f, s.fibers[f], s'.m, s'.fibers[f])
  }

  ghost predicate Next(s: State, s': State)
  {
    exists f :: FiberStep(s, f, s')
  }

  ghost predicate IsRun(run: seq<State>)
  {
    && |run| > 0 && Init(run[0])
    && forall i :: 0 < i < |run| ==> Next(run[i - 1], run[i])
  }
}

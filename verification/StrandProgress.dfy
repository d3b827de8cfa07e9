/**
A fiber that runs alone gets through `Combine`: from any reachable state it returns, or parks because
another fiber is the combiner, within a number of its own steps that grows with the waiters it serves.
*/
module StrandProgress {
  import opened Strand
  import opened StrandProof
  import opened StrandTheorems

  /** Steps until the fiber returns or parks; p waiters hang off the word, k are left of the batch. */
  function Rank(m: Mem, l: Local): nat
  {
    var p, k := |m.pend|, |l.todo|;
    match l.pc
    case Idle => 0
    case FirstLoad => 3 * p + 15
    case FirstCas => 3 * p + 14
    case AwaitLoad => 3 * p + 13
    case AwaitTry(was) => if m.head == was then 3 * p + 12 else 3 * p + 14
    case AwaitPush(was) => if m.head == was then 3 * p + 11 else 3 * p + 13
    case Waiting => 3 * p + 7
    case Check => 3 * p + 6
    case CheckCas(_) => 3 * p + 5
    case RunOwn => if l.cur == 0 then 3 * p + 7 else 3 * k + 5
    case FetchLoad => 3 * p + 6
    case FetchTry(seen) => if m.head == seen then 3 * p + 5 else 3 * p + 6
    case BatchNext => 3 * k + 4
    case BatchRun(_) => 3 * k + 3
    case BatchSchedule(next) => if next == 0 then 2 else 3 * k + 2
    case EndLoad => 5
    case EndTry(seen) => if m.head == seen then 3 else 4
    case Leave => 1
  }

  lemma ReadCloser(m: Mem, l: Local, l': Local)
    requires Shape(l) && l' == l.(pc := l'.pc) && Read(m, l, l'.pc)
    ensures Rank(m, l') < Rank(m, l)
  {}

  lemma EnterCloser(m: Mem, f: Fid, l: Local, m': Mem, l': Local)
    requires MemInv(m) && Shape(l) && (Exit(m, l, m', l') || Claim(m, f, l, m', l') || TakeOver(m, f, l, m', l'))
    ensures Rank(m', l') < Rank(m, l)
  {
    if TakeOver(m, f, l, m', l') { assert PendAt(m, |m.pend| - 1); }
  }

  lemma JoinCloser(m: Mem, l: Local, m': Mem, l': Local)
    requires SetNext(m, l, m', l') || Join(m, l, m', l')
    ensures Rank(m', l') < Rank(m, l)
  {}

  lemma FetchCloser(m: Mem, f: Fid, l: Local, m': Mem, l': Local)
    requires Shape(l) && (OwnTask(m, l, m', l') || Fetch(m, f, l, m', l'))
    ensures Rank(m', l') < Rank(m, l)
  {}

  lemma BatchCloser(m: Mem, f: Fid, l: Local, m': Mem, l': Local)
    requires Shape(l) && Todo(m, f, l) && (BatchTask(m, l, m', l') || HandOver(m, l, m', l') || Schedule(m, l, m', l'))
    ensures Rank(m', l') < Rank(m, l)
  {
    if |l.todo| >= 2 { assert TodoAt(m, f, l, |l.todo| - 2); }
  }

  lemma StepCloser(m: Mem, f: Fid, l: Local, m': Mem, l': Local)
    requires MemInv(m) && FiberInv(m, f, l) && Action(m, f, l, m', l') && !l.pc.Idle?
    ensures Rank(m', l') < Rank(m, l)
  {
    if m' == m && l' == l.(pc := l'.pc) && Read(m, l, l'.pc) { ReadCloser(m, l, l'); }
    else if Exit(m, l, m', l') || Claim(m, f, l, m', l') || TakeOver(m, f, l, m', l') { EnterCloser(m, f, l, m', l'); }
    else if SetNext(m, l, m', l') || Join(m, l, m', l') { JoinCloser(m, l, m', l'); }
    else if OwnTask(m, l, m', l') || Fetch(m, f, l, m', l') { FetchCloser(m, f, l, m', l'); }
    else { BatchCloser(m, f, l, m', l'); }
  }

  // ---- runs ------------------------------------------------------------------------------------

  predicate Inside(s: State, f: Fid)
  {
    f in s.fibers && !s.fibers[f].pc.Idle?
  }

  ghost predicate SoloStep(s: State, f: Fid, s': State)
  {
    Inside(s, f) && FiberStep(s, f, s')
  }

  /** f runs alone, and is inside `Combine` in all states but perhaps the last. */
  ghost predicate Alone(states: seq<State>, f: Fid)
  {
    |states| > 0 && f in states[0].fibers && forall i :: 0 <= i < |states| - 1 ==> SoloStep(states[i], f, states[i + 1])
  }

  lemma SoloCloser(s: State, f: Fid, s': State)
    requires Inv(s) && SoloStep(s, f, s')
    ensures Inv(s') && Rank(s'.m, s'.fibers[f]) < Rank(s.m, s.fibers[f])
  {
    StepKeeps(s, f, s');
    assert FiberInv(s.m, f, s.fibers[f]);
    StepCloser(s.m, f, s.fibers[f], s'.m, s'.fibers[f]);
  }

  lemma {:induction false} RankFalls(states: seq<State>, f: Fid, i: nat)
    requires Alone(states, f) && Inv(states[0]) && i < |states|
    ensures Inv(states[i]) && f in states[i].fibers
    ensures Rank(states[i].m, states[i].fibers[f]) + i <= Rank(states[0].m, states[0].fibers[f])
  {
    if i > 0 {
      RankFalls(states, f, i - 1);
      assert SoloStep(states[i - 1], f, states[i]);
      SoloCloser(states[i - 1], f, states[i]);
    }
  }

  ghost predicate CanGo(s: State, f: Fid)
  {
    exists s' :: FiberStep(s, f, s')
  }

  /** From any state of any run: within that many steps a fiber that runs alone has returned or parked, and before that it can go on. */
  lemma ReturnsOrParks(run: seq<State>, n: nat, states: seq<State>, f: Fid)
    requires IsRun(run) && n < |run| && Alone(states, f) && states[0] == run[n]
    ensures |states| <= 3 * |run[n].m.pend| + 3 * |run[n].fibers[f].todo| + 16
    ensures var s := states[|states| - 1]; f in s.fibers && (Active(s.m, s.fibers[f]) ==> CanGo(s, f))
  {
    RunKeeps(run, n);
    var last := |states| - 1;
    RankFalls(states, f, last);
    var s := states[last];
    if Active(s.m, s.fibers[f]) { ActiveMoves(s, f); }
  }
}

/**
Exhaustive exploration (deps/twist: the DFS scheduler and the Explore loop).  A program
under a deterministic simulator is a finite tree of decisions; each run replays the
recorded schedule and then goes left, and Backtrack moves on to the next schedule.
*/
module DfsExploration {

  datatype Option<+X> = None | Some(value: X)

  datatype BranchType = PickNext | Preempt | WakeOne | RandomChoice | SpuriousWakeup | SpuriousTryFailure

  datatype Branch = Branch(kind: BranchType, alts: nat, index: nat)

  type Schedule = seq<Branch>

  /** What a simulation may do: at each node the scheduler chooses among `kids`. */
  datatype Tree = Leaf(fails: bool) | Node(kind: BranchType, kids: seq<Tree>)

  type Path = seq<nat>

  /** Every choice has at least one alternative. */
  predicate Proper(t: Tree)
  {
    t.Node? ==> |t.kids| > 0 && forall i :: 0 <= i < |t.kids| ==> Proper(t.kids[i])
  }

  // ---- the leaves, from left to right ------------------------------------------------------

  function Prefixed(i: nat, ps: seq<Path>): seq<Path>
  {
    seq(|ps|, j requires 0 <= j < |ps| => [i] + ps[j])
  }

  function Leaves(t: Tree): seq<Path>
    decreases t, if t.Node? then |t.kids| + 2 else 0
  {
    if t.Leaf? then [[]] else LeavesFrom(t, 0)
  }

  /** The leaves under the children i and up. */
  function LeavesFrom(t: Tree, i: nat): seq<Path>
    requires t.Node? && i <= |t.kids|
    decreases t, |t.kids| + 1 - i
  {
    if i == |t.kids| then [] else Prefixed(i, Leaves(t.kids[i])) + LeavesFrom(t, i + 1)
  }

  predicate IsLeaf(t: Tree, p: Path)
  {
    if t.Leaf? then p == [] else p != [] && p[0] < |t.kids| && IsLeaf(t.kids[p[0]], p[1..])
  }

  function FailsAt(t: Tree, p: Path): bool
    requires IsLeaf(t, p)
  {
    if t.Leaf? then t.fails else FailsAt(t.kids[p[0]], p[1..])
  }

  predicate Before(p: Path, q: Path)
  {
    p != [] && q != [] && (p[0] < q[0] || (p[0] == q[0] && Before(p[1..], q[1..])))
  }

  /** The enumeration is complete and in strict lexicographic order, hence without repetition. */
  lemma {:induction false} LeavesAreAll(t: Tree, p: Path)
    ensures p in Leaves(t) <==> IsLeaf(t, p)
    decreases t
  {
    if t.Node? { LeavesFromAreAll(t, 0, p); }
  }

  lemma {:induction false} LeavesFromAreAll(t: Tree, i: nat, p: Path)
    requires t.Node? && i <= |t.kids|
    ensures p in LeavesFrom(t, i) <==> IsLeaf(t, p) && p[0] >= i
    decreases t, |t.kids| - i
  {
    if i < |t.kids| {
      var ps := Leaves(t.kids[i]);
      LeavesFromAreAll(t, i + 1, p);
      if p != [] { LeavesAreAll(t.kids[i], p[1..]); }
      if p in Prefixed(i, ps) {
        var j :| 0 <= j < |ps| && p == [i] + ps[j];
        assert p[1..] == ps[j];
      }
      if p != [] && p[0] == i && p[1..] in ps {
        var j :| 0 <= j < |ps| && ps[j] == p[1..];
        assert Prefixed(i, ps)[j] == p;
      }
    }
  }

  lemma {:induction false} LeavesAreOrdered(t: Tree, i: nat, j: nat)
    requires i < j < |Leaves(t)|
    ensures Before(Leaves(t)[i], Leaves(t)[j])
    decreases t, if t.Node? then |t.kids| + 2 else 0
  {
    if t.Node? { LeavesFromAreOrdered(t, 0, i, j); }
  }

  lemma {:induction false} LeavesFromAreOrdered(t: Tree, k: nat, i: nat, j: nat)
    requires t.Node? && k <= |t.kids| && i < j < |LeavesFrom(t, k)|
    ensures Before(LeavesFrom(t, k)[i], LeavesFrom(t, k)[j])
    decreases t, |t.kids| + 1 - k
  {
    var ps := Leaves(t.kids[k]);
    var n := |ps|;
    if j < n {
      LeavesAreOrdered(t.kids[k], i, j);
      assert ([k] + ps[i])[1..] == ps[i] && ([k] + ps[j])[1..] == ps[j];
    } else if i >= n {
      LeavesFromAreOrdered(t, k + 1, i - n, j - n);
    } else {
      LeavesFromAreAll(t, k + 1, LeavesFrom(t, k + 1)[j - n]);
    }
  }

  // ---- schedules --------------------------------------------------------------------------------

  /** The schedule records decisions of t, from its root on. */
  predicate Fits(t: Tree, s: Schedule)
  {
    s == [] || (t.Node? && s[0].kind == t.kind && s[0].alts == |t.kids| && s[0].index < |t.kids| && Fits(t.kids[s[0].index], s[1..]))
  }

  /** Replay the schedule, then always go left. */
  function Walk(t: Tree, s: Schedule): Path
    requires Proper(t) && Fits(t, s)
  {
    if t.Leaf? then []
    else if s == [] then [0] + Walk(t.kids[0], [])
    else [s[0].index] + Walk(t.kids[s[0].index], s[1..])
  }

  function Record(t: Tree, p: Path): Schedule
    requires IsLeaf(t, p)
  {
    if t.Leaf? then [] else [Branch(t.kind, |t.kids|, p[0])] + Record(t.kids[p[0]], p[1..])
  }

  lemma {:induction false} WalkIsLeaf(t: Tree, s: Schedule)
    requires Proper(t) && Fits(t, s)
    ensures IsLeaf(t, Walk(t, s))
  {
    if t.Node? {
      if s == [] { WalkIsLeaf(t.kids[0], []); } else { WalkIsLeaf(t.kids[s[0].index], s[1..]); }
    }
  }

  // ---- the next schedule ----------------------------------------------------------------------------

  /** What Backtrack makes of a schedule. */
  function Backtracked(s: Schedule): Option<Schedule>
  {
    if s == [] then None
    else
      var last := s[|s| - 1];
      if last.index + 1 == last.alts then Backtracked(s[..|s| - 1])
      else Some(s[..|s| - 1] + [last.(index := last.index + 1)])
  }

  /** The same, seen from the root. */
  lemma {:induction false} BacktrackedFront(b: Branch, s: Schedule)
    ensures Backtracked([b] + s) ==
            match Backtracked(s)
            case Some(q) => Some([b] + q)
            case None => if b.index + 1 == b.alts then None else Some([b.(index := b.index + 1)])
    decreases |s|
  {
    var w := [b] + s;
    var n := |w| - 1;
    if s == [] {
      assert w == [b] && w[..n] == [];
      assert [] + [b.(index := b.index + 1)] == [b.(index := b.index + 1)];
    } else {
      var last := s[|s| - 1];
      assert w[n] == last && w[..n] == [b] + s[..|s| - 1];
      BacktrackedFront(b, s[..|s| - 1]);
      var next := last.(index := last.index + 1);
      assert ([b] + s[..|s| - 1]) + [next] == [b] + (s[..|s| - 1] + [next]);
    }
  }

  /** A choice among no alternatives is never popped: Backtrack moves it from one index to the next. */
  lemma NoAlternatives(kind: BranchType, s: Schedule, i: nat)
    ensures Backtracked(s + [Branch(kind, 0, i)]) == Some(s + [Branch(kind, 0, i + 1)])
  {
    var w := s + [Branch(kind, 0, i)];
    assert w[..|w| - 1] == s;
  }

  /** The leaves to the right of p. */
  function After(t: Tree, p: Path): seq<Path>
    requires IsLeaf(t, p)
  {
    if t.Leaf? then [] else Prefixed(p[0], After(t.kids[p[0]], p[1..])) + LeavesFrom(t, p[0] + 1)
  }

  lemma {:induction false} FirstLeaf(t: Tree)
    requires Proper(t)
    ensures IsLeaf(t, Walk(t, [])) && Leaves(t) == [Walk(t, [])] + After(t, Walk(t, []))
    decreases t
  {
    WalkIsLeaf(t, []);
    if t.Node? { FirstFrom(t, 0); }
  }

  /** The leaves from child i on, when the choice is i and then left. */
  lemma {:induction false} FirstFrom(t: Tree, i: nat)
    requires Proper(t) && t.Node? && i < |t.kids|
    ensures var p := [i] + Walk(t.kids[i], []);
            IsLeaf(t, p) && LeavesFrom(t, i) == [p] + After(t, p)
    decreases t, 0
  {
    var k := t.kids[i];
    FirstLeaf(k);
    var w := Walk(k, []);
    var p := [i] + w;
    assert p[1..] == w;
    assert Prefixed(i, [w] + After(k, w)) == [p] + Prefixed(i, After(k, w));
  }

  predicate Follows(t: Tree, p: Path, next: Option<Schedule>)
    requires Proper(t) && IsLeaf(t, p)
  {
    match next
    case None => After(t, p) == []
    case Some(q) => Fits(t, q) && IsLeaf(t, Walk(t, q)) && After(t, p) == [Walk(t, q)] + After(t, Walk(t, q))
  }

  /** Backtracking from the leaf p leads to the leaf right after p, or nowhere if p is the last one. */
  lemma {:induction false} NextLeaf(t: Tree, p: Path)
    requires Proper(t) && IsLeaf(t, p)
    ensures Follows(t, p, Backtracked(Record(t, p)))
    decreases t
  {
    if t.Node? {
      var i, k, r := p[0], t.kids[p[0]], p[1..];
      NextLeaf(k, r);
      var b := Branch(t.kind, |t.kids|, i);
      BacktrackedFront(b, Record(k, r));
      match Backtracked(Record(k, r))
      case Some(q) => NextBelow(t, p, q);
      case None =>
        assert Prefixed(i, []) == [];
        assert After(t, p) == LeavesFrom(t, i + 1);
        if i + 1 < |t.kids| { FirstFrom(t, i + 1); NextSibling(t, b); }
    }
  }

  lemma BelowWalk(t: Tree, i: nat, q: Schedule)
    requires Proper(t) && t.Node? && i < |t.kids| && Fits(t.kids[i], q)
    ensures var s := [Branch(t.kind, |t.kids|, i)] + q;
            Fits(t, s) && Walk(t, s) == [i] + Walk(t.kids[i], q)
  {
    assert ([Branch(t.kind, |t.kids|, i)] + q)[1..] == q;
  }

  lemma BelowAfter(t: Tree, i: nat, x: Path)
    requires t.Node? && i < |t.kids| && IsLeaf(t.kids[i], x)
    ensures IsLeaf(t, [i] + x) && After(t, [i] + x) == Prefixed(i, After(t.kids[i], x)) + LeavesFrom(t, i + 1)
  {
    assert ([i] + x)[1..] == x;
  }

  lemma PrefixedCons(i: nat, x: Path, ps: seq<Path>)
    ensures Prefixed(i, [x] + ps) == [[i] + x] + Prefixed(i, ps)
  {}

  lemma ConsFirst(x: Path, a: seq<Path>, b: seq<Path>)
    ensures ([x] + a) + b == [x] + (a + b)
  {}

  lemma NextBelow(t: Tree, p: Path, q: Schedule)
    requires Proper(t) && IsLeaf(t, p) && t.Node? && Follows(t.kids[p[0]], p[1..], Some(q))
    ensures Follows(t, p, Some([Branch(t.kind, |t.kids|, p[0])] + q))
  {
    var i, k, r := p[0], t.kids[p[0]], p[1..];
    var x := Walk(k, q);
    assert p == [i] + r;
    BelowWalk(t, i, q);
    BelowAfter(t, i, r);
    BelowAfter(t, i, x);
    PrefixedCons(i, x, After(k, x));
    ConsFirst([i] + x, Prefixed(i, After(k, x)), LeavesFrom(t, i + 1));
    BelowFollows(t, p, [Branch(t.kind, |t.kids|, i)] + q, [i] + x);
  }

  lemma BelowFollows(t: Tree, p: Path, s: Schedule, w: Path)
    requires Proper(t) && IsLeaf(t, p) && Fits(t, s) && Walk(t, s) == w && IsLeaf(t, w) && After(t, p) == [w] + After(t, w)
    ensures Follows(t, p, Some(s))
  {}

  lemma NextSibling(t: Tree, b: Branch)
    requires Proper(t) && t.Node? && b.kind == t.kind && b.alts == |t.kids| && b.index + 1 < |t.kids|
    ensures var q := [b.(index := b.index + 1)];
            Fits(t, q) && Walk(t, q) == [b.index + 1] + Walk(t.kids[b.index + 1], [])
  {
    assert [b.(index := b.index + 1)][1..] == [];
  }

  // ---- the scheduler ----------------------------------------------------------------------------------

  function Rest(s: Schedule, i: nat): Schedule
  {
    if i < |s| then s[i..] else []
  }

  class Scheduler {
    var schedule: Schedule
    var branchIndex: nat

    constructor ()
      ensures schedule == [] && branchIndex == 0
    {
      schedule, branchIndex := [], 0;
    }

    method Start()
      modifies this`branchIndex
      ensures branchIndex == 0
    {
      branchIndex := 0;
    }

    /** Replay, or record a new branch and go left. */
    method Choose(alts: nat, kind: BranchType) returns (index: nat)
      requires branchIndex < |schedule| ==> schedule[branchIndex].kind == kind
      modifies this
      ensures branchIndex == old(branchIndex) + 1
      ensures if old(branchIndex) < |old(schedule)|
              then schedule == old(schedule) && index == schedule[old(branchIndex)].index
              else schedule == old(schedule) + [Branch(kind, alts, 0)] && index == 0
    {
      var branch := branchIndex;
      branchIndex := branchIndex + 1;
      if branch < |schedule| {
        index := schedule[branch].index;
      } else {
        schedule := schedule + [Branch(kind, alts, 0)];
        index := 0;
      }
    }

    method Backtrack() returns (more: bool)
      modifies this`schedule
      ensures more <==> Backtracked(old(schedule)).Some?
      ensures more ==> Backtracked(old(schedule)) == Some(schedule)
    {
      while schedule != []
        invariant Backtracked(schedule) == Backtracked(old(schedule))
        decreases |schedule|
      {
        var last := schedule[|schedule| - 1];
        if last.index + 1 == last.alts {
          schedule := schedule[..|schedule| - 1];
        } else {
          schedule := schedule[..|schedule| - 1] + [last.(index := last.index + 1)];
          return true;
        }
      }
      return false;
    }

    /** One simulation: it asks for a choice at each node until it ends. */
    method Simulate(t: Tree) returns (p: Path, fails: bool)
      requires Proper(t) && Fits(t, schedule)
      modifies this
      ensures IsLeaf(t, p) && p == Walk(t, old(schedule)) && fails == FailsAt(t, p)
      ensures schedule == Record(t, p)
    {
      Start();
      p := [];
      var node := t;
      ghost var rest, whole := schedule, Walk(t, schedule);
      WalkIsLeaf(t, schedule);
      while node.Node?
        invariant |p| == branchIndex <= |schedule| && rest == schedule[branchIndex..]
        invariant OnWay(t, whole, node, rest, p, schedule[..branchIndex])
        decreases node
      {
        ghost var was, before, now := branchIndex, schedule, node;
        KindAgrees(t, whole, node, rest, p, schedule[..branchIndex]);
        var i := Choose(|node.kids|, node.kind);
        ChosenIs(before, was, schedule, rest, node, i);
        OnWayStep(t, whole, now, rest, p, before[..was], i, schedule[branchIndex..]);
        p, node, rest := p + [i], node.kids[i], schedule[branchIndex..];
      }
      OnWayEnds(t, whole, node, rest, p, schedule[..branchIndex]);
      fails := node.fails;
    }
  }

  /** A simulation on its way to the leaf `whole`: at `node`, having chosen p and recorded s, with `rest` to replay. */
  predicate OnWay(t: Tree, whole: Path, node: Tree, rest: Schedule, p: Path, s: Schedule)
  {
    && IsLeaf(t, whole) && Proper(node) && Fits(node, rest) && IsLeaf(node, Walk(node, rest))
    && p + Walk(node, rest) == whole && FailsAt(t, whole) == FailsAt(node, Walk(node, rest))
    && Record(t, whole) == s + Record(node, Walk(node, rest))
  }

  lemma KindAgrees(t: Tree, whole: Path, node: Tree, rest: Schedule, p: Path, s: Schedule)
    requires OnWay(t, whole, node, rest, p, s) && node.Node?
    ensures rest != [] ==> rest[0].kind == node.kind && rest[0].alts == |node.kids| && rest[0].index < |node.kids|
    ensures |node.kids| > 0
  {}

  lemma ChosenIs(before: Schedule, was: nat, after: Schedule, rest: Schedule, node: Tree, i: nat)
    requires node.Node? && was <= |before| && rest == before[was..]
    requires rest != [] ==> rest[0].kind == node.kind && rest[0].alts == |node.kids|
    requires if was < |before| then after == before && i == before[was].index else after == before + [Branch(node.kind, |node.kids|, 0)] && i == 0
    ensures was + 1 <= |after| && after[..was + 1] == before[..was] + [Branch(node.kind, |node.kids|, i)]
    ensures if rest == [] then i == 0 && after[was + 1..] == [] else i == rest[0].index && after[was + 1..] == rest[1..]
  {}

  lemma OnWayStep(t: Tree, whole: Path, node: Tree, rest: Schedule, p: Path, s: Schedule, i: nat, rest': Schedule)
    requires OnWay(t, whole, node, rest, p, s) && node.Node?
    requires if rest == [] then i == 0 && rest' == [] else i == rest[0].index && rest' == rest[1..]
    ensures i < |node.kids| && OnWay(t, whole, node.kids[i], rest', p + [i], s + [Branch(node.kind, |node.kids|, i)])
  {
    StepDown(node, rest, i, rest');
    Regroup(p, [i], Walk(node.kids[i], rest'));
    Regroup(s, [Branch(node.kind, |node.kids|, i)], Record(node.kids[i], Walk(node.kids[i], rest')));
  }

  lemma OnWayEnds(t: Tree, whole: Path, node: Tree, rest: Schedule, p: Path, s: Schedule)
    requires OnWay(t, whole, node, rest, p, s) && node.Leaf?
    ensures p == whole && s == Record(t, whole) && node.fails == FailsAt(t, whole) && rest == []
  {
    assert p + [] == p && s + [] == s;
  }

  lemma Regroup<X>(a: seq<X>, b: seq<X>, c: seq<X>)
    ensures a + (b + c) == (a + b) + c
  {}

  /** One choice of a simulation that has the rest of a schedule to replay. */
  lemma StepDown(t: Tree, rest: Schedule, i: nat, rest': Schedule)
    requires Proper(t) && t.Node? && Fits(t, rest) && IsLeaf(t, Walk(t, rest))
    requires if rest == [] then i == 0 && rest' == [] else i == rest[0].index && rest' == rest[1..]
    ensures i < |t.kids| && Proper(t.kids[i]) && Fits(t.kids[i], rest') && IsLeaf(t.kids[i], Walk(t.kids[i], rest'))
    ensures Walk(t, rest) == [i] + Walk(t.kids[i], rest')
    ensures Record(t, Walk(t, rest)) == [Branch(t.kind, |t.kids|, i)] + Record(t.kids[i], Walk(t.kids[i], rest'))
    ensures FailsAt(t, Walk(t, rest)) == FailsAt(t.kids[i], Walk(t.kids[i], rest'))
  {
    assert Walk(t, rest)[1..] == Walk(t.kids[i], rest');
  }

  // ---- the exploration loop -----------------------------------------------------------------------------

  predicate Passes(t: Tree, p: Path)
  {
    IsLeaf(t, p) && !FailsAt(t, p)
  }

  /** The schedule s leads to the first of the leaves that are still to be visited. */
  predicate Ahead(t: Tree, s: Schedule, visited: seq<Path>, todo: seq<Path>)
    requires Proper(t)
  {
    && Fits(t, s) && IsLeaf(t, Walk(t, s))
    && todo == [Walk(t, s)] + After(t, Walk(t, s)) && visited + todo == Leaves(t)
  }

  lemma Visit(t: Tree, s: Schedule, visited: seq<Path>, todo: seq<Path>)
    requires Proper(t) && Ahead(t, s, visited, todo)
    ensures todo != [] && todo[1..] == After(t, Walk(t, s)) && (visited + [Walk(t, s)]) + todo[1..] == Leaves(t)
  {}

  lemma Move(t: Tree, p: Path, next: Option<Schedule>, visited: seq<Path>, todo: seq<Path>)
    requires Proper(t) && IsLeaf(t, p) && Follows(t, p, next) && todo == After(t, p) && visited + todo == Leaves(t)
    ensures next.None? ==> visited == Leaves(t)
    ensures next.Some? ==> Ahead(t, next.value, visited, todo)
  {
    assert visited + [] == visited;
  }

  /**
  Explore visits the leaves from left to right, each once, until one fails or none is left.
  */
  method Explore(t: Tree) returns (visited: seq<Path>, found: Option<Path>)
    requires Proper(t)
    ensures visited <= Leaves(t)
    ensures found.None? ==> visited == Leaves(t) && forall i :: 0 <= i < |visited| ==> Passes(t, visited[i])
    ensures found.Some? ==>
              && visited != [] && found.value == visited[|visited| - 1] && IsLeaf(t, found.value) && FailsAt(t, found.value)
              && forall i :: 0 <= i < |visited| - 1 ==> Passes(t, visited[i])
  {
    var scheduler := new Scheduler();
    visited := [];
    FirstLeaf(t);
    ghost var todo := Leaves(t);
    while true
      invariant Ahead(t, scheduler.schedule, visited, todo)
      invariant forall i :: 0 <= i < |visited| ==> Passes(t, visited[i])
      decreases |todo|
    {
      Visit(t, scheduler.schedule, visited, todo);
      var p, fails := scheduler.Simulate(t);
      visited, todo := visited + [p], todo[1..];
      if fails { return visited, Some(p); }
      NextLeaf(t, p);
      Move(t, p, Backtracked(scheduler.schedule), visited, todo);
      var more := scheduler.Backtrack();
      if !more { return visited, None; }
    }
  }

  /** Nothing is missed: a program with a failing run is reported, and a silent exploration means that no run fails. */
  lemma SilentMeansSafe(t: Tree, visited: seq<Path>, p: Path)
    requires visited == Leaves(t) && (forall i :: 0 <= i < |visited| ==> Passes(t, visited[i])) && IsLeaf(t, p)
    ensures !FailsAt(t, p)
  {
    LeavesAreAll(t, p);
  }
}

/**
A cell is an atomic pointer: every run, seen through the pointers in the cells, the handles of the
threads and the calls they make, is a run of a specification in which Load, Store and
CompareExchangeWeak take effect at one instant between call and return.
*/
module AtomicSharedPtrTheorems {
  import opened AtomicSharedPtr
  import opened AtomicSharedPtrProof

  // ---- the specification ---------------------------------------------------------------

  datatype View = View(call: Stage, handles: multiset<Ptr>)

  datatype Spec = Spec(cells: seq<Ptr>, threads: seq<View>)

  /** One handle on p more; none for null. */
  predicate Gains(h: multiset<Ptr>, h': multiset<Ptr>, p: Ptr)
  {
    h' == if p == 0 then h else h + multiset{p}
  }

  predicate Busy(call: Stage)
  {
    call.Making? || call.Calling? || call.Missed?
  }

  /** A call begins; handles passed by value are the call's from now on. */
  predicate Invokes(cells: seq<Ptr>, v: View, op: Op, v': View)
  {
    !Busy(v.call) && v'.call == Calling(op) &&
    match op
    case Copy(p) => p != 0 && p in v.handles && v'.handles == v.handles
    case Reset(p) => p != 0 && Gains(v'.handles, v.handles, p)
    case Load(c) => c < |cells| && v'.handles == v.handles
    case Store(c, p) => c < |cells| && Gains(v'.handles, v.handles, p)
    case Cas(c, e, p) => c < |cells| && Gains(v'.handles, v.handles, p) && (e != 0 ==> e in v'.handles)
  }

  /** A call takes effect. */
  predicate Answers(cells: seq<Ptr>, v: View, cells': seq<Ptr>, v': View)
  {
    match v.call
    case Making(p) => cells' == cells && v'.call == Made(p) && Gains(v.handles, v'.handles, p)
    case Calling(Copy(p)) => cells' == cells && v'.call == Settled(v.call.op, true, p) && Gains(v.handles, v'.handles, p)
    case Calling(Reset(_)) => cells' == cells && v'.call == Settled(v.call.op, true, 0) && v'.handles == v.handles
    case Calling(Load(c)) =>
      c < |cells| && cells' == cells && v'.call == Settled(v.call.op, true, cells[c]) && Gains(v.handles, v'.handles, cells[c])
    case Calling(Store(c, p)) =>
      c < |cells| && cells' == cells[c := p] && v'.call == Settled(v.call.op, true, 0) && v'.handles == v.handles
    case Calling(Cas(c, e, p)) =>
      c < |cells| &&
      (|| (cells[c] == e && cells' == cells[c := p] && v'.call == Settled(v.call.op, true, 0) && v'.handles == v.handles)
       || (cells' == cells && v'.call == Missed(v.call.op) && Gains(v'.handles, v.handles, e)))
    case Missed(Cas(c, _, _)) =>
      c < |cells| && cells' == cells && v'.call == Settled(v.call.op, false, cells[c]) && Gains(v.handles, v'.handles, cells[c])
    case _ => false
  }

  /** MakeShared begins with a pointer that nobody has. */
  predicate Creates(a: Spec, v: View, p: Ptr, v': View)
  {
    && !Busy(v.call) && v' == View(Making(p), v.handles) && p != 0 && p !in a.cells
    && forall u :: 0 <= u < |a.threads| ==> p !in a.threads[u].handles && a.threads[u].call != Making(p)
  }

  predicate Passes(a: Spec, t: nat, u: nat, p: Ptr, a': Spec)
    requires t < |a.threads| && u < |a.threads|
  {
    && u != t && p != 0 && a'.cells == a.cells && |a'.threads| == |a.threads|
    && a'.threads == a.threads[t := a'.threads[t]][u := a'.threads[u]]
    && a'.threads[t].call == a.threads[t].call && Gains(a'.threads[t].handles, a.threads[t].handles, p)
    && a'.threads[u].call == a.threads[u].call && Gains(a.threads[u].handles, a'.threads[u].handles, p)
  }

  ghost predicate SpecStep(a: Spec, t: nat, a': Spec)
  {
    || a' == a
    || (&& t < |a.threads| == |a'.threads| && a'.threads == a.threads[t := a'.threads[t]]
        && var v, v' := a.threads[t], a'.threads[t];
           || (a'.cells == a.cells && exists op :: Invokes(a.cells, v, op, v'))
           || (a'.cells == a.cells && exists p :: Creates(a, v, p, v'))
           || Answers(a.cells, v, a'.cells, v'))
    || (t < |a.threads| && exists u, p :: 0 <= u < |a.threads| && Passes(a, t, u, p, a'))
  }

  ghost predicate SpecNext(a: Spec, a': Spec)
  {
    exists t :: SpecStep(a, t, a')
  }

  // ---- the abstraction and what ties a call to its acts ------------------------------------------

  function Pointers(cells: seq<Stamped>): seq<Ptr>
  {
    seq(|cells|, c requires 0 <= c < |cells| => cells[c].ptr)
  }

  function Abs(s: State): Spec
  {
    Spec(Pointers(s.cells), seq(|s.threads|, t requires 0 <= t < |s.threads| => ViewOf(s.threads[t])))
  }

  function ViewOf(l: Local): View
  {
    View(l.call, l.handles)
  }

  predicate Reads(a: Act, c: nat)
  {
    (a.LoadRead? || a.LoadTry?) && a.c == c
  }

  predicate Tries(a: Act, c: nat, e: Ptr, p: Ptr)
  {
    a.CasTry? && a.c == c && a.ex.ptr == e && a.p == p
  }

  /** What is left when the call has taken effect: counting and deleting. */
  predicate Afterwards(todo: seq<Act>)
  {
    forall i :: 0 <= i < |todo| ==>
      todo[i].DropRef? || todo[i].Lower? || todo[i].Cleanup? || todo[i].RaiseBy? || todo[i].LowerBy? || todo[i].Flush? || todo[i].Delete?
  }

  predicate Staged(l: Local)
  {
    match l.call
    case Resting => l.todo == []
    case Making(p) => l.todo == [AddRef(p, true)]
    case Made(_) => Afterwards(l.todo)
    case Settled(_, _, _) => Afterwards(l.todo)
    case Calling(Copy(p)) => l.todo == [AddRef(p, false)]
    case Calling(Reset(p)) => l.todo == [DropRef(p)]
    case Calling(Load(c)) => |l.todo| == 1 && Reads(l.todo[0], c)
    case Calling(Store(c, p)) =>
      |l.todo| > 0 && l.todo[1..] == DropLater(p) && (l.todo[0] == Exchange(c, p) || l.todo[0] == RaiseFor(p, Exchange(c, p)))
    case Calling(Cas(c, e, p)) =>
      && |l.todo| > 0 && l.todo[1..] == DropLater(p)
      && (|| l.todo[0] == CasRead(c, e, p)
          || Tries(l.todo[0], c, e, p)
          || (l.todo[0].RaiseFor? && l.todo[0].p == p && Tries(l.todo[0].next, c, e, p)))
    case Missed(Cas(c, e, p)) =>
      && |l.todo| > 0
      && (|| (Reads(l.todo[0], c) && l.todo[1..] == DropLater(e) + DropLater(p))
          || (l.todo[0] == Lower(p) && l.todo[1..] == [LoadRead(c)] + DropLater(e) + DropLater(p)))
    case _ => false
  }

  ghost predicate Linked(s: State)
  {
    Inv(s) && forall t {:trigger s.threads[t]} :: 0 <= t < |s.threads| ==> Staged(s.threads[t])
  }

  // ---- the steps of a thread ------------------------------------------------------------------------

  lemma CallAnswers(s: State, t: nat, s': State)
    requires t < |s.threads| && Call(s, t, s') && Staged(s.threads[t])
    ensures Staged(s'.threads[t]) && exists op :: Invokes(Pointers(s.cells), ViewOf(s.threads[t]), op, ViewOf(s'.threads[t]))
  {
    var l := s.threads[t];
    var op :| Callable(s, l, op) && s' == Go(s, t, Started(l, op));
    StartedStaged(l, op);
    assert Invokes(Pointers(s.cells), ViewOf(l), op, ViewOf(s'.threads[t]));
  }

  lemma StartedStaged(l: Local, op: Op)
    ensures Staged(Started(l, op))
  {
    if op.Store? || op.Cas? { assert Started(l, op).todo[1..] == DropLater(op.p); }
  }

  predicate Moved(s: State, t: nat, s': State)
    requires t < |s.threads| == |s'.threads|
  {
    && Staged(s'.threads[t])
    && (|| (Pointers(s'.cells) == Pointers(s.cells) && ViewOf(s'.threads[t]) == ViewOf(s.threads[t]))
        || Answers(Pointers(s.cells), ViewOf(s.threads[t]), Pointers(s'.cells), ViewOf(s'.threads[t])))
  }

  lemma AddAnswers(s: State, t: nat, s': State)
    requires t < |s.threads| && AddStep(s, t, s') && WellFormed(s.threads[t]) && Staged(s.threads[t])
    ensures |s'.threads| == |s.threads| && Moved(s, t, s')
  {
    var l, l', a := s.threads[t], s'.threads[t], s.threads[t].todo[0];
    var now := s.blocks[a.p].count;
    if s' != Go(s, t, l.(seen := Some(now))) {
      if l.call.Made? || l.call.Settled? { AfterOutside(l, a, now); }
      else if a.RaiseFor? || a.Lower? { AfterInside(l, a, now); }
      else { CountedAnswers(Pointers(s.cells), l, a, now); }
    }
  }

  /** The strong count of the pointer to be stored goes up, or down again. */
  lemma AfterInside(l: Local, a: Act, now: Count)
    requires Staged(l) && l.todo != [] && l.todo[0] == a && (a.RaiseFor? || a.Lower?) && (l.call.Calling? || l.call.Missed?)
    ensures Staged(After(l, a, now)) && ViewOf(After(l, a, now)) == ViewOf(l)
  {
    var l' := After(l, a, now);
    if a.RaiseFor? { assert l'.todo[0] == a.next && l'.todo[1..] == l.todo[1..]; } else { LowerStaged(l, a, now); }
  }

  lemma LowerStaged(l: Local, a: Act, now: Count)
    requires Staged(l) && l.todo != [] && l.todo[0] == a && a.Lower? && (l.call.Calling? || l.call.Missed?)
    ensures Staged(After(l, a, now))
  {
    var l' := After(l, a, now);
    var Cas(c, e, p) := l.call.op;
    assert l'.todo == l.todo[1..] == [LoadRead(c)] + DropLater(e) + DropLater(p);
    assert l'.todo[1..] == DropLater(e) + DropLater(p);
  }

  /** A handle is made, copied or dropped. */
  lemma CountedAnswers(cells: seq<Ptr>, l: Local, a: Act, now: Count)
    requires WellFormed(l) && Staged(l) && l.todo != [] && l.todo[0] == a && IsAdd(a) && !a.RaiseFor? && !a.Lower?
    requires !l.call.Made? && !l.call.Settled?
    ensures Staged(After(l, a, now)) && Answers(cells, ViewOf(l), cells, ViewOf(After(l, a, now)))
  {
    assert l.todo[1..] == [];
  }

  lemma AfterOutside(l: Local, a: Act, now: Count)
    requires Staged(l) && l.todo != [] && l.todo[0] == a && IsAdd(a) && (l.call.Made? || l.call.Settled?)
    ensures Staged(After(l, a, now)) && ViewOf(After(l, a, now)) == ViewOf(l)
  {
    var acts, rest := Then(a, Added(a, now)), l.todo[1..];
    assert Afterwards(acts) && Afterwards(rest);
  }

  lemma LoadAnswers(s: State, t: nat, s': State)
    requires t < |s.threads| && LoadStep(s, t, s') && Staged(s.threads[t])
    ensures |s'.threads| == |s.threads| && Moved(s, t, s')
  {
    var l, l' := s.threads[t], s'.threads[t];
    var c := l.todo[0].c;
    if s'.cells == s.cells {
      assert l'.todo == [LoadTry(c, s.cells[c])] + l.todo[1..];
    } else {
      assert Pointers(s'.cells) == Pointers(s.cells);
    }
  }

  lemma ExchangeAnswers(s: State, t: nat, s': State)
    requires t < |s.threads| && ExchangeStep(s, t, s') && Staged(s.threads[t])
    ensures |s'.threads| == |s.threads| && Moved(s, t, s')
  {
    var c := s.threads[t].todo[0].c;
    assert Pointers(s'.cells) == Pointers(s.cells)[c := s'.cells[c].ptr];
    ReleasedAfter(s.threads[t], s.cells[c]);
  }

  lemma ReleasedAfter(l: Local, was: Stamped)
    requires l.todo != [] && Afterwards(l.todo[1..])
    ensures Afterwards(Instead(l, Released(was)).todo)
  {
    assert Afterwards(Released(was));
  }

  lemma CasAnswers(s: State, t: nat, s': State)
    requires t < |s.threads| && CasStep(s, t, s') && WellFormed(s.threads[t]) && Staged(s.threads[t])
    ensures |s'.threads| == |s.threads| && Moved(s, t, s')
  {
    var l, l' := s.threads[t], s'.threads[t];
    if l.todo[0].CasRead? {
      assert l'.todo[1..] == l.todo[1..];
    } else {
      var CasTry(c, ex, p) := l.todo[0];
      if l'.call.Missed? {
        MissedStaged(l, c, ex.ptr, p);
      } else {
        assert Pointers(s'.cells) == Pointers(s.cells)[c := p];
        ReleasedAfter(l, ex);
      }
    }
  }

  lemma MissedStaged(l: Local, c: nat, e: Ptr, p: Ptr)
    requires l.call == Calling(Cas(c, e, p)) && l.todo != [] && l.todo[1..] == DropLater(p)
    ensures Staged(Instead(l, Failed(c, e, p)).(handles := Without(l.handles, e), call := Miss(l.call)))
  {
    var todo := Instead(l, Failed(c, e, p)).todo;
    if p == 0 {
      assert todo[1..] == DropLater(e) + DropLater(p);
    } else {
      assert todo[1..] == [LoadRead(c)] + DropLater(e) + DropLater(p);
    }
  }

  lemma RestAnswers(s: State, t: nat, s': State)
    requires t < |s.threads| && (DeleteStep(s, t, s') || FlushStep(s, t, s')) && Staged(s.threads[t])
    ensures |s'.threads| == |s.threads| && Moved(s, t, s')
  {
    assert Pointers(s'.cells) == Pointers(s.cells);
  }

  // ---- every step is a step of the specification --------------------------------------------------

  lemma CreateAnswers(s: State, t: nat, s': State)
    requires Linked(s) && t < |s.threads| && Make(s, t, s')
    ensures Staged(s'.threads[t]) && exists p :: Creates(Abs(s), ViewOf(s.threads[t]), p, ViewOf(s'.threads[t]))
  {
    var l := s.threads[t];
    var p :| p != 0 && p !in s.blocks
             && s' == Go(s, t, l.(todo := [AddRef(p, true)], call := Making(p))).(blocks := s.blocks[p := Block(Count(0, 0), Some(t))]);
    assert Staged(l);
    Unknown(s, p);
    assert Creates(Abs(s), ViewOf(l), p, ViewOf(s'.threads[t]));
  }

  /** Nobody knows a pointer that is not allocated. */
  lemma Unknown(s: State, p: Ptr)
    requires Linked(s) && p != 0 && p !in s.blocks
    ensures p !in Pointers(s.cells)
    ensures forall u :: 0 <= u < |s.threads| ==> p !in s.threads[u].handles && s.threads[u].call != Making(p)
  {
    forall u | 0 <= u < |s.threads| ensures p !in s.threads[u].handles && s.threads[u].call != Making(p) {
      assert Staged(s.threads[u]);
      if p in s.threads[u].handles || s.threads[u].call == Making(p) { HeadMentions(s, u, p); }
    }
  }

  lemma PassAnswers(s: State, t: nat, s': State)
    requires Linked(s) && t < |s.threads| && Give(s, t, s')
    ensures |s'.threads| == |s.threads| && (forall u {:trigger s'.threads[u]} :: 0 <= u < |s.threads| ==> Staged(s'.threads[u]))
    ensures SpecStep(Abs(s), t, Abs(s'))
  {
    var l := s.threads[t];
    var u, p :| 0 <= u < |s.threads| && u != t && p in l.handles && (var r := s.threads[u];
      s' == s.(threads := s.threads[t := l.(handles := l.handles - multiset{p})][u := r.(handles := r.handles + multiset{p})]));
    assert ThreadOk(s, t);
    assert Gives(s, t, s', u, p) && p != 0;
    forall v | 0 <= v < |s.threads| ensures Staged(s'.threads[v]) { GivenStaged(s, t, s', u, p, v); }
    PassesOn(s, t, s', u, p);
  }

  lemma GivenStaged(s: State, t: nat, s': State, u: nat, p: Ptr, v: nat)
    requires Gives(s, t, s', u, p) && v < |s.threads| && Staged(s.threads[v])
    ensures Staged(s'.threads[v])
  {
    SameStage(s.threads[v], s'.threads[v]);
  }

  lemma SameStage(l: Local, l': Local)
    requires Staged(l) && l' == l.(handles := l'.handles)
    ensures Staged(l')
  {}

  lemma PassesOn(s: State, t: nat, s': State, u: nat, p: Ptr)
    requires Gives(s, t, s', u, p) && p != 0
    ensures Passes(Abs(s), t, u, p, Abs(s'))
  {
    var a, a' := Abs(s), Abs(s');
    assert a'.threads == a.threads[t := a'.threads[t]][u := a'.threads[u]];
    assert s.threads[t].handles == s'.threads[t].handles + multiset{p};
  }

  lemma StepRefines(s: State, t: nat, s': State)
    requires Linked(s) && ThreadStep(s, t, s')
    ensures Linked(s') && SpecStep(Abs(s), t, Abs(s'))
  {
    StepKeeps(s, t, s');
    assert ThreadOk(s, t);
    if Give(s, t, s') {
      PassAnswers(s, t, s');
    } else {
      OneMoves(s, t, s');
      assert Abs(s').threads == Abs(s).threads[t := ViewOf(s'.threads[t])];
      if Call(s, t, s') { CallAnswers(s, t, s'); }
      else if Make(s, t, s') { CreateAnswers(s, t, s'); }
      else { InnerAnswers(s, t, s'); }
    }
  }

  lemma OneMoves(s: State, t: nat, s': State)
    requires ThreadStep(s, t, s') && !Give(s, t, s')
    ensures |s'.threads| == |s.threads| && s'.threads == s.threads[t := s'.threads[t]]
    ensures Call(s, t, s') || Make(s, t, s') ==> s'.cells == s.cells
  {
    if Call(s, t, s') { var op :| Callable(s, s.threads[t], op) && s' == Go(s, t, Started(s.threads[t], op)); }
  }

  lemma InnerAnswers(s: State, t: nat, s': State)
    requires ThreadStep(s, t, s') && !Give(s, t, s') && !Call(s, t, s') && !Make(s, t, s') && WellFormed(s.threads[t]) && Staged(s.threads[t])
    ensures |s'.threads| == |s.threads| && Moved(s, t, s')
  {
    if AddStep(s, t, s') { AddAnswers(s, t, s'); }
    else if LoadStep(s, t, s') { LoadAnswers(s, t, s'); }
    else if ExchangeStep(s, t, s') { ExchangeAnswers(s, t, s'); }
    else if CasStep(s, t, s') { CasAnswers(s, t, s'); }
    else { RestAnswers(s, t, s'); }
  }

  // ---- runs -------------------------------------------------------------------------------------------

  ghost predicate SpecRun(run: seq<Spec>)
  {
    && |run| > 0
    && (forall c :: 0 <= c < |run[0].cells| ==> run[0].cells[c] == 0)
    && (forall t :: 0 <= t < |run[0].threads| ==> run[0].threads[t] == View(Resting, multiset{}))
    && forall i :: 0 < i < |run| ==> SpecNext(run[i - 1], run[i])
  }

  lemma {:induction false} RunLinked(run: seq<State>, n: nat)
    requires IsRun(run) && n < |run|
    ensures Linked(run[n])
  {
    if n == 0 {
      InitHolds(run[0]);
    } else {
      RunLinked(run, n - 1);
      assert Next(run[n - 1], run[n]);
      var t :| ThreadStep(run[n - 1], t, run[n]);
      StepRefines(run[n - 1], t, run[n]);
    }
  }

  /** Every run is a run of atomic pointers. */
  lemma RunRefines(run: seq<State>)
    requires IsRun(run)
    ensures SpecRun(seq(|run|, i requires 0 <= i < |run| => Abs(run[i])))
  {
    var abs := seq(|run|, i requires 0 <= i < |run| => Abs(run[i]));
    assert abs[0] == Abs(run[0]);
    forall i | 0 < i < |abs| ensures SpecNext(abs[i - 1], abs[i]) {
      RunLinked(run, i - 1);
      assert Next(run[i - 1], run[i]);
      var t :| ThreadStep(run[i - 1], t, run[i]);
      StepRefines(run[i - 1], t, run[i]);
      assert SpecStep(abs[i - 1], t, abs[i]);
    }
  }

  /** No call returns before it has taken effect. */
  lemma ReturnsSettled(run: seq<State>, n: nat, t: nat)
    requires IsRun(run) && n < |run| && t < |run[n].threads| && run[n].threads[t].todo == []
    ensures !Busy(run[n].threads[t].call)
  {
    RunLinked(run, n);
    assert Staged(run[n].threads[t]);
  }

  /**
  What a cell points at changes only by the exchange of a Store, to the pointer given to that call, or by a
  compare-exchange that found exactly the pointer its caller expected, to the one it desired.
  */
  lemma CellIsAtomic(run: seq<State>, n: nat, t: nat, c: nat)
    requires IsRun(run) && n + 1 < |run| && ThreadStep(run[n], t, run[n + 1]) && c < |run[n].cells|
    ensures |run[n + 1].cells| == |run[n].cells|
    ensures var was, now, call := run[n].cells[c].ptr, run[n + 1].cells[c].ptr, run[n].threads[t].call;
            || now == was
            || call == Calling(Store(c, now))
            || (call == Calling(Cas(c, was, now)) && run[n + 1].threads[t].call == Settled(call.op, true, 0))
  {
    RunLinked(run, n);
    StepRefines(run[n], t, run[n + 1]);
    SpecCell(Abs(run[n]), t, Abs(run[n + 1]), c);
  }

  lemma SpecCell(a: Spec, t: nat, a': Spec, c: nat)
    requires SpecStep(a, t, a') && t < |a.threads| && c < |a.cells|
    ensures |a'.cells| == |a.cells| && |a'.threads| == |a.threads|
    ensures var was, now, call := a.cells[c], a'.cells[c], a.threads[t].call;
            || now == was
            || call == Calling(Store(c, now))
            || (call == Calling(Cas(c, was, now)) && a'.threads[t].call == Settled(call.op, true, 0))
  {}
}

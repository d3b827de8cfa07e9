/**
Which functions a run calls: those that the expression asks for, each as often as it asks, whatever
the order of tasks.  What is still to be called is counted along continuations, as the work is.
*/
module FuturesCalls {
  import opened Futures
  import opened FuturesProof
  import opened FuturesRuns
  import opened Sums

  // ---- what an expression asks for ----------------------------------------------------------

  /** How often the evaluation of e makes the call c. */
  function Asks(phi: Phi, n: nat, e: Expr, c: Called): nat
    decreases n, e
  {
    match e
    case Ready(_) => 0
    case Just => 0
    case Submit(_, _) => 0
    case Map(e1, fn) => Asks(phi, n, e1, c) + Is(Made(phi, n, e1, fn), c)
    case Via(e1, _) => Asks(phi, n, e1, c)
    case MapOk(e1, fn) => Asks(phi, n, e1, c) + if ValueOf(phi, n, e1).Ok? then Is(Made(phi, n, e1, fn), c) else 0
    case Flatten(e1) =>
      var v := ValueOf(phi, n, e1);
      Asks(phi, n, e1, c) + if v.Fut? && n > 0 then Asks(phi, n - 1, v.f, c) else 0
    case Both(a, b) => Asks(phi, n, a, c) + Asks(phi, n, b, c)
  }

  function Made(phi: Phi, n: nat, e: Expr, fn: Fun): Option<Called>
  {
    if Has(phi, n, e) then Some(Called(fn, Eval(phi, n, e).value.v, Eval(phi, n, e).value.s, e)) else None
  }

  function Is(a: Option<Called>, c: Called): nat
  {
    if a == Some(c) then 1 else 0
  }

  lemma {:induction false} AsksMore(phi: Phi, n: nat, e: Expr, c: Called)
    requires Has(phi, n, e)
    ensures Asks(phi, n + 1, e, c) == Asks(phi, n, e, c)
    decreases n, e
  {
    match e
    case Ready(_) =>
    case Just =>
    case Submit(_, _) =>
    case Map(e1, _) => AsksMore(phi, n, e1, c); EvalMore(phi, n, e1);
    case Via(e1, _) => AsksMore(phi, n, e1, c);
    case MapOk(e1, _) => AsksMore(phi, n, e1, c); EvalMore(phi, n, e1);
    case Flatten(e1) =>
      AsksMore(phi, n, e1, c);
      EvalMore(phi, n, e1);
      AsksMore(phi, n - 1, Eval(phi, n, e1).value.v.f, c);
    case Both(a, b) =>
      AsksMore(phi, n, a, c);
      AsksMore(phi, n, b, c);
  }

  // ---- what is still to be called ---------------------------------------------------------------

  function ContAsks(phi: Phi, n: nat, k: Cont, v: Value, s: State, c: Called): nat
    decreases k
  {
    match k
    case Final => 0
    case MapCont(fn, k1, up) => Is(Some(Called(fn, v, s, up)), c) + ContAsks(phi, n, k1, Call(phi, fn, v), s, c)
    case MapOkCont(fn, k1, up) =>
      (if v.Ok? then Is(Some(Called(fn, v, s, up)), c) else 0) + ContAsks(phi, n, k1, OverOk(phi, fn, v), s, c)
    case ViaCont(on, k1) => ContAsks(phi, n, k1, v, Some(on), c)
    case FlattenCont(k1) => if v.Fut? then Asks(phi, n, v.f, c) + ContAsks(phi, n, k1, ValueOf(phi, n, v.f), s, c) else 0
    case InnerCont(k1, s1) => ContAsks(phi, n, k1, v, s1, c)
    case Binder(_, _) => 0
  }

  function CompAsks(phi: Phi, n: nat, comp: Comp, c: Called): nat
  {
    match comp
    case ReadyComp(v, k) => ContAsks(phi, n, k, v, None, c)
    case SubmitComp(on, fn, k) => ContAsks(phi, n, k, Call(phi, fn, Unit), Some(on), c)
    case BothComp(a, b, k) =>
      Asks(phi, n, a, c) + Asks(phi, n, b, c) + ContAsks(phi, n, k, Pair(ValueOf(phi, n, a), ValueOf(phi, n, b)), None, c)
  }

  function ActAsks(phi: Phi, n: nat, act: Activity, c: Called): nat
  {
    match act
    case Start(comp) => CompAsks(phi, n, comp, c)
    case Resume(k, v, s) => ContAsks(phi, n, k, v, s, c)
    case SubmitTask(on, fn, k) => ContAsks(phi, n, k, Call(phi, fn, Unit), Some(on), c)
    case MapTask(on, fn, v, s, k, up) => Is(Some(Called(fn, v, Some(on), up)), c) + ContAsks(phi, n, k, Call(phi, fn, v), s, c)
    case MapOkTask(on, fn, v, s, k, up) =>
      (if v.Ok? then Is(Some(Called(fn, v, Some(on), up)), c) else 0) + ContAsks(phi, n, k, OverOk(phi, fn, v), s, c)
    case Check(_) => 0
  }

  lemma MapAsks(phi: Phi, n: nat, e: Expr, fn: Fun, k: Cont, c: Called)
    requires Has(phi, n, Map(e, fn))
    ensures Has(phi, n, e)
    ensures var o, i := Eval(phi, n, Map(e, fn)).value, Eval(phi, n, e).value;
            Asks(phi, n, Map(e, fn), c) + ContAsks(phi, n, k, o.v, o.s, c) ==
            Asks(phi, n, e, c) + ContAsks(phi, n, MapCont(fn, k, e), i.v, i.s, c)
  {}

  lemma ViaAsks(phi: Phi, n: nat, e: Expr, on: Scheduler, k: Cont, c: Called)
    requires Has(phi, n, Via(e, on))
    ensures Has(phi, n, e)
    ensures var o, i := Eval(phi, n, Via(e, on)).value, Eval(phi, n, e).value;
            Asks(phi, n, Via(e, on), c) + ContAsks(phi, n, k, o.v, o.s, c) ==
            Asks(phi, n, e, c) + ContAsks(phi, n, ViaCont(on, k), i.v, i.s, c)
  {}

  lemma BothAsks(phi: Phi, n: nat, a: Expr, b: Expr, k: Cont, c: Called)
    requires Has(phi, n, Both(a, b))
    ensures var o := Eval(phi, n, Both(a, b)).value;
            CompAsks(phi, n, BothComp(a, b, k), c) == Asks(phi, n, Both(a, b), c) + ContAsks(phi, n, k, o.v, o.s, c)
  {}

  lemma MapOkAsks(phi: Phi, n: nat, e: Expr, fn: Fun, k: Cont, c: Called)
    requires Has(phi, n, MapOk(e, fn))
    ensures Has(phi, n, e)
    ensures var o, i := Eval(phi, n, MapOk(e, fn)).value, Eval(phi, n, e).value;
            Asks(phi, n, MapOk(e, fn), c) + ContAsks(phi, n, k, o.v, o.s, c) ==
            Asks(phi, n, e, c) + ContAsks(phi, n, MapOkCont(fn, k, e), i.v, i.s, c)
  {}

  lemma FlattenAsks(phi: Phi, n: nat, e: Expr, k: Cont, c: Called)
    requires Has(phi, n, Flatten(e))
    ensures Has(phi, n, e)
    ensures var o, i := Eval(phi, n, Flatten(e)).value, Eval(phi, n, e).value;
            Asks(phi, n, Flatten(e), c) + ContAsks(phi, n, k, o.v, o.s, c) ==
            Asks(phi, n, e, c) + ContAsks(phi, n, FlattenCont(k), i.v, i.s, c)
  {
    FlattenParts(phi, n, e);
    var i := Eval(phi, n, e).value;
    SameBelow(phi, n, i.v.f);
    AsksMore(phi, n - 1, i.v.f, c);
    AskParts(phi, n, e, c);
    ResumeAsksFor(phi, n, k, i.v.f, i.s, c);
  }

  lemma AskParts(phi: Phi, n: nat, e: Expr, c: Called)
    requires Has(phi, n, Flatten(e)) && n > 0 && Has(phi, n, e) && Eval(phi, n, e).value.v.Fut?
    ensures Asks(phi, n, Flatten(e), c) == Asks(phi, n, e, c) + Asks(phi, n - 1, Eval(phi, n, e).value.v.f, c)
  {}

  lemma ResumeAsksFor(phi: Phi, n: nat, k: Cont, f: Expr, s: State, c: Called)
    ensures ContAsks(phi, n, FlattenCont(k), Fut(f), s, c) == Asks(phi, n, f, c) + ContAsks(phi, n, k, ValueOf(phi, n, f), s, c)
  {}

  lemma {:induction false} MaterializeAsks(phi: Phi, n: nat, e: Expr, k: Cont, c: Called)
    requires Has(phi, n, e)
    ensures CompAsks(phi, n, Materialize(e, k), c) ==
            Asks(phi, n, e, c) + ContAsks(phi, n, k, Eval(phi, n, e).value.v, Eval(phi, n, e).value.s, c)
    decreases e
  {
    match e
    case Ready(_) =>
    case Just =>
    case Submit(_, _) =>
    case Map(e1, fn) =>
      MapAsks(phi, n, e1, fn, k, c);
      MaterializeAsks(phi, n, e1, MapCont(fn, k, e1), c);
    case Via(e1, on) =>
      ViaAsks(phi, n, e1, on, k, c);
      MaterializeAsks(phi, n, e1, ViaCont(on, k), c);
    case MapOk(e1, fn) =>
      MapOkAsks(phi, n, e1, fn, k, c);
      MaterializeAsks(phi, n, e1, MapOkCont(fn, k, e1), c);
    case Flatten(e1) =>
      FlattenAsks(phi, n, e1, k, c);
      MaterializeAsks(phi, n, e1, FlattenCont(k), c);
    case Both(a, b) => BothAsks(phi, n, a, b, k, c);
  }

  // ---- a step calls what it no longer asks for ---------------------------------------------------------

  function ActList(phi: Phi, n: nat, acts: seq<Activity>, c: Called): seq<int>
  {
    seq(|acts|, i requires 0 <= i < |acts| => ActAsks(phi, n, acts[i], c))
  }

  function CellAsks(phi: Phi, n: nat, cell: Cell, c: Called): int
  {
    if cell.finished < 2 then ContAsks(phi, n, cell.k, Pair(ValueOf(phi, n, cell.ea), ValueOf(phi, n, cell.eb)), None, c) else 0
  }

  function CellList(phi: Phi, n: nat, cells: seq<Cell>, c: Called): seq<int>
  {
    seq(|cells|, i requires 0 <= i < |cells| => CellAsks(phi, n, cells[i], c))
  }

  /** Calls made and still to be made. */
  function Total(phi: Phi, n: nat, cf: Config, c: Called): int
  {
    multiset(cf.calls)[c] + Sum(ActList(phi, n, cf.acts, c)) + Sum(CellList(phi, n, cf.cells, c))
  }

  lemma ActListReplace(phi: Phi, n: nat, acts: seq<Activity>, i: nat, new_: seq<Activity>, c: Called)
    requires i < |acts|
    ensures Sum(ActList(phi, n, acts[..i] + new_ + acts[i + 1..], c)) ==
            Sum(ActList(phi, n, acts, c)) - ActAsks(phi, n, acts[i], c) + Sum(ActList(phi, n, new_, c))
  {
    var t := ActList(phi, n, acts, c);
    assert ActList(phi, n, acts[..i] + new_ + acts[i + 1..], c) == t[..i] + ActList(phi, n, new_, c) + t[i + 1..];
    SumReplace(t, i, ActList(phi, n, new_, c));
  }

  lemma ActListOne(phi: Phi, n: nat, act: Activity, c: Called)
    ensures Sum(ActList(phi, n, [act], c)) == ActAsks(phi, n, act, c)
  {
    assert ActList(phi, n, [act], c) == [ActAsks(phi, n, act, c) as int];
    SumOne(ActAsks(phi, n, act, c));
  }

  lemma SuccessorAsks(phi: Phi, n: nat, cells: seq<Cell>, goal: Out, act: Activity, c: Called)
    requires Plain(act) && Able(Config([], [], [], []), act) && RightAct(phi, n, cells, goal, act)
    ensures multiset(NewCalls(act))[c] + ActAsks(phi, n, Successor(phi, act), c) == ActAsks(phi, n, act, c)
  {
    if act.Resume? { ResumeAsks(phi, n, cells, goal, act, c); } else { TaskAsks(phi, n, act, c); }
  }

  lemma TaskAsks(phi: Phi, n: nat, act: Activity, c: Called)
    requires Plain(act) && !act.Resume?
    ensures multiset(NewCalls(act))[c] + ActAsks(phi, n, Successor(phi, act), c) == ActAsks(phi, n, act, c)
  {}

  lemma ResumeAsks(phi: Phi, n: nat, cells: seq<Cell>, goal: Out, act: Activity, c: Called)
    requires act.Resume? && Plain(act) && Able(Config([], [], [], []), act) && RightAct(phi, n, cells, goal, act)
    ensures multiset(NewCalls(act))[c] + ActAsks(phi, n, Successor(phi, act), c) == ActAsks(phi, n, act, c)
  {
    if act.k.FlattenCont? { MaterializeAsks(phi, n, act.v.f, InnerCont(act.k.k, act.s), c); }
  }

  lemma PlainSame(phi: Phi, n: nat, goal: Out, cf: Config, i: nat, c: Called)
    requires Inv(phi, n, goal, cf) && i < |cf.acts| && Plain(cf.acts[i]) && Able(cf, cf.acts[i])
    ensures Total(phi, n, Run(phi, cf, i), c) == Total(phi, n, cf, c)
  {
    var act := cf.acts[i];
    assert RightAct(phi, n, cf.cells, goal, act);
    PlainRuns(phi, cf, i);
    SuccessorAsks(phi, n, cf.cells, goal, act, c);
    ActListReplace(phi, n, cf.acts, i, [Successor(phi, act)], c);
    ActListOne(phi, n, Successor(phi, act), c);
    assert multiset(cf.calls + NewCalls(act)) == multiset(cf.calls) + multiset(NewCalls(act));
  }

  lemma EndSame(phi: Phi, n: nat, cf: Config, i: nat, c: Called)
    requires i < |cf.acts| && Able(cf, cf.acts[i]) && cf.acts[i].Resume? && (cf.acts[i].k.Final? || cf.acts[i].k.Binder?)
    ensures Total(phi, n, Run(phi, cf, i), c) == Total(phi, n, cf, c)
  {
    var act, cf' := cf.acts[i], Run(phi, cf, i);
    if act.k.Final? {
      ActListReplace(phi, n, cf.acts, i, [], c);
    } else {
      ActListReplace(phi, n, cf.acts, i, [Check(act.k.c)], c);
      ActListOne(phi, n, Check(act.k.c), c);
      assert CellList(phi, n, cf'.cells, c) == CellList(phi, n, cf.cells, c);
    }
  }

  lemma CheckSame(phi: Phi, n: nat, goal: Out, cf: Config, i: nat, c: Called)
    requires Inv(phi, n, goal, cf) && i < |cf.acts| && Able(cf, cf.acts[i]) && cf.acts[i].Check?
    ensures Total(phi, n, Run(phi, cf, i), c) == Total(phi, n, cf, c)
  {
    var cf', d := Run(phi, cf, i), cf.acts[i].c;
    CheckAble(phi, n, goal, cf, i);
    assert CellOk(phi, n, goal, cf, d);
    var cell, t := cf.cells[d], CellList(phi, n, cf.cells, c);
    ActListReplace(phi, n, cf.acts, i, Fires(cell), c);
    assert CellList(phi, n, cf'.cells, c) == t[d := CellAsks(phi, n, cf'.cells[d], c)];
    SumUpdate(t, d, CellAsks(phi, n, cf'.cells[d], c));
    if cell.finished == 1 { ActListOne(phi, n, Fires(cell)[0], c); }
  }

  lemma BothSame(phi: Phi, n: nat, goal: Out, cf: Config, i: nat, c: Called)
    requires Inv(phi, n, goal, cf) && i < |cf.acts| && cf.acts[i].Start? && cf.acts[i].comp.BothComp?
    ensures Total(phi, n, Run(phi, cf, i), c) == Total(phi, n, cf, c)
  {
    var BothComp(a, b, k) := cf.acts[i].comp;
    var cf', d := Run(phi, cf, i), |cf.cells|;
    assert RightAct(phi, n, cf.cells, goal, cf.acts[i]);
    ActListReplace(phi, n, cf.acts, i, BothStarts(a, b, d), c);
    StartsAsk(phi, n, a, b, d, c);
    CellListPush(phi, n, cf.cells, Cell(None, None, 0, k, a, b), c);
  }

  lemma StartsAsk(phi: Phi, n: nat, a: Expr, b: Expr, d: nat, c: Called)
    requires Has(phi, n, a) && Has(phi, n, b)
    ensures Sum(ActList(phi, n, BothStarts(a, b, d), c)) == Asks(phi, n, a, c) + Asks(phi, n, b, c)
  {
    MaterializeAsks(phi, n, a, Binder(d, true), c);
    MaterializeAsks(phi, n, b, Binder(d, false), c);
    assert ActList(phi, n, BothStarts(a, b, d), c) == [Asks(phi, n, a, c) as int, Asks(phi, n, b, c) as int];
    SumTwo(Asks(phi, n, a, c), Asks(phi, n, b, c));
  }

  lemma CellListPush(phi: Phi, n: nat, cells: seq<Cell>, cell: Cell, c: Called)
    ensures Sum(CellList(phi, n, cells + [cell], c)) == Sum(CellList(phi, n, cells, c)) + CellAsks(phi, n, cell, c)
  {
    var w := CellAsks(phi, n, cell, c);
    assert CellList(phi, n, cells + [cell], c) == CellList(phi, n, cells, c) + [w];
    SumConcat(CellList(phi, n, cells, c), [w]);
    SumOne(w);
  }

  lemma StepSame(phi: Phi, n: nat, goal: Out, cf: Config, i: nat, c: Called)
    requires Inv(phi, n, goal, cf) && i < |cf.acts| && Able(cf, cf.acts[i])
    ensures Total(phi, n, Run(phi, cf, i), c) == Total(phi, n, cf, c)
  {
    var act := cf.acts[i];
    if Plain(act) { PlainSame(phi, n, goal, cf, i, c); }
    else if act.Check? { CheckSame(phi, n, goal, cf, i, c); }
    else if act.Start? { BothSame(phi, n, goal, cf, i, c); }
    else { EndSame(phi, n, cf, i, c); }
  }

  // ---- over a whole run -------------------------------------------------------------------------------

  lemma BeginTotal(phi: Phi, n: nat, e: Expr, c: Called)
    requires Has(phi, n, e)
    ensures Total(phi, n, Begin(e), c) == Asks(phi, n, e, c)
  {
    MaterializeAsks(phi, n, e, Final, c);
    ActListOne(phi, n, Start(Materialize(e, Final)), c);
  }

  lemma {:induction false} RunTotal(phi: Phi, n: nat, e: Expr, run: seq<Config>, i: nat, c: Called)
    requires Has(phi, n, e) && IsRun(phi, e, run) && i < |run|
    ensures Total(phi, n, run[i], c) == Asks(phi, n, e, c)
  {
    if i == 0 {
      BeginTotal(phi, n, e, c);
    } else {
      RunTotal(phi, n, e, run, i - 1, c);
      RunHolds(phi, n, e, run, i - 1);
      assert Step(phi, run[i - 1], run[i]);
      var j: nat :| 0 <= j < |run[i - 1].acts| && Able(run[i - 1], run[i - 1].acts[j]) && run[i] == Run(phi, run[i - 1], j);
      StepSame(phi, n, Eval(phi, n, e).value, run[i - 1], j, c);
    }
  }

  /** A run that has ended has made every call that the expression asks for, as often as it asks, and no other. */
  lemma CallsMade(phi: Phi, n: nat, e: Expr, run: seq<Config>, c: Called)
    requires Has(phi, n, e) && IsRun(phi, e, run) && run[|run| - 1].acts == []
    ensures multiset(run[|run| - 1].calls)[c] == Asks(phi, n, e, c)
  {
    var cf := run[|run| - 1];
    RunTotal(phi, n, e, run, |run| - 1, c);
    RunHolds(phi, n, e, run, |run| - 1);
    forall d | 0 <= d < |cf.cells| ensures CellList(phi, n, cf.cells, c)[d] == 0 {
      AllFinished(phi, n, Eval(phi, n, e).value, cf, d);
    }
    SumAllZero(CellList(phi, n, cf.cells, c));
  }

  lemma AllFinished(phi: Phi, n: nat, goal: Out, cf: Config, d: nat)
    requires Inv(phi, n, goal, cf) && cf.acts == [] && d < |cf.cells|
    ensures cf.cells[d].finished == 2
  {
    assert CellOk(phi, n, goal, cf, d);
    assert Token(cf, Side(d, true)) && Token(cf, Side(d, false));
    NobodyWaits(phi, n, goal, cf, Side(d, true));
    NobodyWaits(phi, n, goal, cf, Side(d, false));
  }
}

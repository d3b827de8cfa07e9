/**
Compilation preserves meaning.  If an expression has a value, then every run of its
compiled form ends, whatever the order of tasks, and resumes the final continuation
exactly once, with that value and with the scheduler the expression determines.
*/
module FuturesProof {
  import opened Futures
  import opened Sums

  // ---- depth of nesting -------------------------------------------------------------------

  lemma {:induction false} EvalMore(phi: Phi, n: nat, e: Expr)
    requires Eval(phi, n, e).Some?
    ensures Eval(phi, n + 1, e) == Eval(phi, n, e)
    decreases n, e
  {
    match e
    case Ready(_) =>
    case Just =>
    case Submit(_, _) =>
    case Map(e1, _) => EvalMore(phi, n, e1);
    case Via(e1, _) => EvalMore(phi, n, e1);
    case MapOk(e1, _) => EvalMore(phi, n, e1);
    case Flatten(e1) =>
      EvalMore(phi, n, e1);
      EvalMore(phi, n - 1, Eval(phi, n, e1).value.v.f);
    case Both(a, b) =>
      EvalMore(phi, n, a);
      EvalMore(phi, n, b);
  }

  predicate Has(phi: Phi, n: nat, e: Expr)
  {
    Eval(phi, n, e).Some?
  }

  function ValueOf(phi: Phi, n: nat, e: Expr): Value
  {
    if Has(phi, n, e) then Eval(phi, n, e).value.v else Unit
  }

  // ---- what a continuation is owed ------------------------------------------------------------

  /** Resuming k with v and s leads, through this chain of continuations, to what is expected at its end. */
  predicate Right(phi: Phi, n: nat, cells: seq<Cell>, goal: Out, k: Cont, v: Value, s: State)
    decreases k
  {
    match k
    case Final => goal == Out(v, s)
    case MapCont(fn, k1, up) => Eval(phi, n, up) == Some(Out(v, s)) && Right(phi, n, cells, goal, k1, Call(phi, fn, v), s)
    case MapOkCont(fn, k1, up) =>
      && Eval(phi, n, up) == Some(Out(v, s)) && (v.Ok? || v.Err?)
      && Right(phi, n, cells, goal, k1, OverOk(phi, fn, v), s)
    case ViaCont(on, k1) => Right(phi, n, cells, goal, k1, v, Some(on))
    case FlattenCont(k1) => v.Fut? && Has(phi, n, v.f) && Right(phi, n, cells, goal, k1, ValueOf(phi, n, v.f), s)
    case InnerCont(k1, s1) => Right(phi, n, cells, goal, k1, v, s1)
    case Binder(c, first) =>
      c < |cells| && v == if first then ValueOf(phi, n, cells[c].ea) else ValueOf(phi, n, cells[c].eb)
  }

  predicate RightComp(phi: Phi, n: nat, cells: seq<Cell>, goal: Out, comp: Comp)
  {
    match comp
    case ReadyComp(v, k) => Right(phi, n, cells, goal, k, v, None)
    case SubmitComp(on, fn, k) => Right(phi, n, cells, goal, k, Call(phi, fn, Unit), Some(on))
    case BothComp(a, b, k) =>
      Has(phi, n, a) && Has(phi, n, b) && Right(phi, n, cells, goal, k, Pair(ValueOf(phi, n, a), ValueOf(phi, n, b)), None)
  }

  predicate RightAct(phi: Phi, n: nat, cells: seq<Cell>, goal: Out, act: Activity)
  {
    match act
    case Start(comp) => RightComp(phi, n, cells, goal, comp)
    case Resume(k, v, s) => Right(phi, n, cells, goal, k, v, s)
    case SubmitTask(on, fn, k) => Right(phi, n, cells, goal, k, Call(phi, fn, Unit), Some(on))
    case MapTask(on, fn, v, s, k, up) => s == Some(on) && Right(phi, n, cells, goal, MapCont(fn, k, up), v, s)
    case MapOkTask(on, fn, v, s, k, up) => s == Some(on) && Right(phi, n, cells, goal, MapOkCont(fn, k, up), v, s)
    case Check(c) => c < |cells|
  }

  /** The compiler is correct: the computation delivers the value of the expression to its continuation. */
  lemma {:induction false} MaterializeRight(phi: Phi, n: nat, cells: seq<Cell>, goal: Out, e: Expr, k: Cont)
    requires Has(phi, n, e) && Right(phi, n, cells, goal, k, Eval(phi, n, e).value.v, Eval(phi, n, e).value.s)
    ensures RightComp(phi, n, cells, goal, Materialize(e, k))
    decreases e
  {
    match e
    case Ready(_) =>
    case Just =>
    case Submit(_, _) =>
    case Map(e1, fn) => MaterializeRight(phi, n, cells, goal, e1, MapCont(fn, k, e1));
    case Via(e1, on) => MaterializeRight(phi, n, cells, goal, e1, ViaCont(on, k));
    case MapOk(e1, fn) => MaterializeRight(phi, n, cells, goal, e1, MapOkCont(fn, k, e1));
    case Flatten(e1) =>
      EvalMore(phi, n - 1, Eval(phi, n, e1).value.v.f);
      MaterializeRight(phi, n, cells, goal, e1, FlattenCont(k));
    case Both(_, _) =>
  }

  // ---- what is left to do ----------------------------------------------------------------------------

  /** Steps until the computation of e resumes its continuation. */
  function Cost(phi: Phi, n: nat, e: Expr): nat
    decreases n, e
  {
    match e
    case Ready(_) => 1
    case Just => 1
    case Submit(_, _) => 2
    case Map(e1, _) => Cost(phi, n, e1) + 2
    case Via(e1, _) => Cost(phi, n, e1) + 1
    case MapOk(e1, _) => Cost(phi, n, e1) + 2
    case Flatten(e1) =>
      var v := ValueOf(phi, n, e1);
      Cost(phi, n, e1) + 2 + if v.Fut? && n > 0 then Cost(phi, n - 1, v.f) else 0
    case Both(a, b) => Cost(phi, n, a) + Cost(phi, n, b) + 5
  }

  lemma {:induction false} CostMore(phi: Phi, n: nat, e: Expr)
    requires Eval(phi, n, e).Some?
    ensures Cost(phi, n + 1, e) == Cost(phi, n, e)
    decreases n, e
  {
    match e
    case Ready(_) =>
    case Just =>
    case Submit(_, _) =>
    case Map(e1, _) => CostMore(phi, n, e1);
    case Via(e1, _) => CostMore(phi, n, e1);
    case MapOk(e1, _) => CostMore(phi, n, e1);
    case Flatten(e1) =>
      CostMore(phi, n, e1);
      EvalMore(phi, n, e1);
      CostMore(phi, n - 1, Eval(phi, n, e1).value.v.f);
    case Both(a, b) =>
      CostMore(phi, n, a);
      CostMore(phi, n, b);
  }

  /** Steps from the resumption of k to the end of its chain. */
  function Work(phi: Phi, n: nat, k: Cont, v: Value, s: State): nat
    decreases k
  {
    match k
    case Final => 1
    case MapCont(fn, k1, _) => 2 + Work(phi, n, k1, Call(phi, fn, v), s)
    case MapOkCont(fn, k1, _) => 2 + Work(phi, n, k1, OverOk(phi, fn, v), s)
    case ViaCont(on, k1) => 1 + Work(phi, n, k1, v, Some(on))
    case FlattenCont(k1) => 2 + (if v.Fut? then Cost(phi, n, v.f) + Work(phi, n, k1, ValueOf(phi, n, v.f), s) else 0)
    case InnerCont(k1, s1) => 1 + Work(phi, n, k1, v, s1)
    case Binder(_, _) => 2
  }

  function WorkComp(phi: Phi, n: nat, comp: Comp): nat
  {
    match comp
    case ReadyComp(v, k) => 1 + Work(phi, n, k, v, None)
    case SubmitComp(on, fn, k) => 2 + Work(phi, n, k, Call(phi, fn, Unit), Some(on))
    case BothComp(a, b, k) =>
      Cost(phi, n, a) + Cost(phi, n, b) + 5 + Work(phi, n, k, Pair(ValueOf(phi, n, a), ValueOf(phi, n, b)), None)
  }

  function WorkAct(phi: Phi, n: nat, act: Activity): nat
  {
    match act
    case Start(comp) => WorkComp(phi, n, comp)
    case Resume(k, v, s) => Work(phi, n, k, v, s)
    case SubmitTask(on, fn, k) => 1 + Work(phi, n, k, Call(phi, fn, Unit), Some(on))
    case MapTask(on, fn, v, s, k, up) => 1 + Work(phi, n, k, Call(phi, fn, v), s)
    case MapOkTask(on, fn, v, s, k, up) => 1 + Work(phi, n, k, OverOk(phi, fn, v), s)
    case Check(_) => 1
  }

  lemma MapWork(phi: Phi, n: nat, e: Expr, fn: Fun, k: Cont)
    requires Has(phi, n, Map(e, fn))
    ensures Has(phi, n, e)
    ensures var o, i := Eval(phi, n, Map(e, fn)).value, Eval(phi, n, e).value;
            Cost(phi, n, Map(e, fn)) + Work(phi, n, k, o.v, o.s) == Cost(phi, n, e) + Work(phi, n, MapCont(fn, k, e), i.v, i.s)
  {}

  lemma MapOkWork(phi: Phi, n: nat, e: Expr, fn: Fun, k: Cont)
    requires Has(phi, n, MapOk(e, fn))
    ensures Has(phi, n, e)
    ensures var o, i := Eval(phi, n, MapOk(e, fn)).value, Eval(phi, n, e).value;
            Cost(phi, n, MapOk(e, fn)) + Work(phi, n, k, o.v, o.s) == Cost(phi, n, e) + Work(phi, n, MapOkCont(fn, k, e), i.v, i.s)
  {}

  lemma FlattenWork(phi: Phi, n: nat, e: Expr, k: Cont)
    requires Has(phi, n, Flatten(e))
    ensures Has(phi, n, e)
    ensures var o, i := Eval(phi, n, Flatten(e)).value, Eval(phi, n, e).value;
            Cost(phi, n, Flatten(e)) + Work(phi, n, k, o.v, o.s) == Cost(phi, n, e) + Work(phi, n, FlattenCont(k), i.v, i.s)
  {
    var i := Eval(phi, n, e).value;
    FlattenParts(phi, n, e);
    SameBelow(phi, n, i.v.f);
    ResumeWork(phi, n, k, i.v.f, i.s);
  }

  lemma FlattenParts(phi: Phi, n: nat, e: Expr)
    requires Has(phi, n, Flatten(e))
    ensures n > 0 && Has(phi, n, e) && Eval(phi, n, e).value.v.Fut?
    ensures var i := Eval(phi, n, e).value;
            && Has(phi, n - 1, i.v.f)
            && Eval(phi, n, Flatten(e)).value == Out(ValueOf(phi, n - 1, i.v.f), i.s)
            && Cost(phi, n, Flatten(e)) == Cost(phi, n, e) + 2 + Cost(phi, n - 1, i.v.f)
  {}

  lemma SameBelow(phi: Phi, n: nat, f: Expr)
    requires n > 0 && Has(phi, n - 1, f)
    ensures ValueOf(phi, n, f) == ValueOf(phi, n - 1, f) && Cost(phi, n, f) == Cost(phi, n - 1, f)
  {
    EvalMore(phi, n - 1, f);
    CostMore(phi, n - 1, f);
  }

  lemma ResumeWork(phi: Phi, n: nat, k: Cont, f: Expr, s: State)
    ensures Work(phi, n, FlattenCont(k), Fut(f), s) == 2 + Cost(phi, n, f) + Work(phi, n, k, ValueOf(phi, n, f), s)
  {}

  lemma {:induction false} MaterializeWork(phi: Phi, n: nat, e: Expr, k: Cont)
    requires Has(phi, n, e)
    ensures WorkComp(phi, n, Materialize(e, k)) == Cost(phi, n, e) + Work(phi, n, k, Eval(phi, n, e).value.v, Eval(phi, n, e).value.s)
    decreases e
  {
    match e
    case Ready(_) =>
    case Just =>
    case Submit(_, _) =>
    case Map(e1, fn) =>
      MapWork(phi, n, e1, fn, k);
      MaterializeWork(phi, n, e1, MapCont(fn, k, e1));
    case Via(e1, on) => MaterializeWork(phi, n, e1, ViaCont(on, k));
    case MapOk(e1, fn) =>
      MapOkWork(phi, n, e1, fn, k);
      MaterializeWork(phi, n, e1, MapOkCont(fn, k, e1));
    case Flatten(e1) =>
      FlattenWork(phi, n, e1, k);
      MaterializeWork(phi, n, e1, FlattenCont(k));
    case Both(_, _) =>
  }

  // ---- tokens: who will resume what ------------------------------------------------------------------

  datatype Target = Root | Side(c: nat, first: bool)

  function TargetOf(k: Cont): Target
  {
    match k
    case Final => Root
    case MapCont(_, k1, _) => TargetOf(k1)
    case MapOkCont(_, k1, _) => TargetOf(k1)
    case ViaCont(_, k1) => TargetOf(k1)
    case FlattenCont(k1) => TargetOf(k1)
    case InnerCont(k1, _) => TargetOf(k1)
    case Binder(c, first) => Side(c, first)
  }

  function ActTarget(act: Activity): Option<Target>
  {
    match act
    case Start(comp) => Some(TargetOf(comp.k))
    case Check(_) => None
    case _ => Some(TargetOf(act.k))
  }

  lemma {:induction false} MaterializeTarget(e: Expr, k: Cont)
    ensures TargetOf(Materialize(e, k).k) == TargetOf(k)
    decreases e
  {
    match e
    case Map(e1, fn) => MaterializeTarget(e1, MapCont(fn, k, e1));
    case Via(e1, on) => MaterializeTarget(e1, ViaCont(on, k));
    case MapOk(e1, fn) => MaterializeTarget(e1, MapOkCont(fn, k, e1));
    case Flatten(e1) => MaterializeTarget(e1, FlattenCont(k));
    case _ =>
  }

  function One(b: bool): int
  {
    if b then 1 else 0
  }

  /** Activities bound for x, unfired cells bound for x, and whether x was reached. */
  function ActTokens(acts: seq<Activity>, x: Target): seq<int>
  {
    seq(|acts|, i requires 0 <= i < |acts| => One(ActTarget(acts[i]) == Some(x)))
  }

  function CellTokens(cells: seq<Cell>, x: Target): seq<int>
  {
    seq(|cells|, i requires 0 <= i < |cells| => One(cells[i].finished < 2 && TargetOf(cells[i].k) == x))
  }

  function Reached(cf: Config, x: Target): int
  {
    match x
    case Root => |cf.done|
    case Side(c, first) => if c < |cf.cells| then One(if first then cf.cells[c].a.Some? else cf.cells[c].b.Some?) else 1
  }

  predicate Token(cf: Config, x: Target)
  {
    Sum(ActTokens(cf.acts, x)) + Sum(CellTokens(cf.cells, x)) + Reached(cf, x) == 1
  }

  function Checks(acts: seq<Activity>, c: nat): seq<int>
  {
    seq(|acts|, i requires 0 <= i < |acts| => One(acts[i] == Check(c)))
  }

  // ---- the invariant -----------------------------------------------------------------------------------

  predicate CellOk(phi: Phi, n: nat, goal: Out, cf: Config, c: nat)
    requires c < |cf.cells|
  {
    var cell := cf.cells[c];
    && Has(phi, n, cell.ea) && Has(phi, n, cell.eb)
    && (cell.a.Some? ==> cell.a.value == ValueOf(phi, n, cell.ea))
    && (cell.b.Some? ==> cell.b.value == ValueOf(phi, n, cell.eb))
    && Right(phi, n, cf.cells, goal, cell.k, Pair(ValueOf(phi, n, cell.ea), ValueOf(phi, n, cell.eb)), None)
    && (TargetOf(cell.k).Side? ==> TargetOf(cell.k).c < c)
    && cell.finished + Sum(Checks(cf.acts, c)) == One(cell.a.Some?) + One(cell.b.Some?)
  }

  predicate Inv(phi: Phi, n: nat, goal: Out, cf: Config)
  {
    && (forall i {:trigger RightAct(phi, n, cf.cells, goal, cf.acts[i])} :: 0 <= i < |cf.acts| ==> RightAct(phi, n, cf.cells, goal, cf.acts[i]))
    && (forall c {:trigger CellOk(phi, n, goal, cf, c)} :: 0 <= c < |cf.cells| ==> CellOk(phi, n, goal, cf, c))
    && (forall i :: 0 <= i < |cf.done| ==> cf.done[i] == goal)
    && (forall i :: 0 <= i < |cf.calls| ==> Eval(phi, n, cf.calls[i].up) == Some(Out(cf.calls[i].arg, cf.calls[i].on)))
    && Token(cf, Root)
    && (forall c, first {:trigger Side(c, first)} :: 0 <= c < |cf.cells| ==> Token(cf, Side(c, first)))
  }

  // ---- frames --------------------------------------------------------------------------------------------

  /** Cells keep their producers, and new ones are added at the end. */
  predicate Grows(cells: seq<Cell>, cells': seq<Cell>)
  {
    |cells| <= |cells'| && forall c :: 0 <= c < |cells| ==> cells'[c].ea == cells[c].ea && cells'[c].eb == cells[c].eb
  }

  lemma {:induction false} RightGrows(phi: Phi, n: nat, cells: seq<Cell>, cells': seq<Cell>, goal: Out, k: Cont, v: Value, s: State)
    requires Right(phi, n, cells, goal, k, v, s) && Grows(cells, cells')
    ensures Right(phi, n, cells', goal, k, v, s)
    decreases k
  {
    match k
    case Final =>
    case MapCont(fn, k1, up) => RightGrows(phi, n, cells, cells', goal, k1, Call(phi, fn, v), s);
    case MapOkCont(fn, k1, up) => RightGrows(phi, n, cells, cells', goal, k1, OverOk(phi, fn, v), s);
    case ViaCont(on, k1) => RightGrows(phi, n, cells, cells', goal, k1, v, Some(on));
    case FlattenCont(k1) => RightGrows(phi, n, cells, cells', goal, k1, ValueOf(phi, n, v.f), s);
    case InnerCont(k1, s1) => RightGrows(phi, n, cells, cells', goal, k1, v, s1);
    case Binder(_, _) =>
  }

  lemma RightActGrows(phi: Phi, n: nat, cells: seq<Cell>, cells': seq<Cell>, goal: Out, act: Activity)
    requires RightAct(phi, n, cells, goal, act) && Grows(cells, cells')
    ensures RightAct(phi, n, cells', goal, act)
  {
    match act
    case Start(ReadyComp(v, k)) => RightGrows(phi, n, cells, cells', goal, k, v, None);
    case Start(SubmitComp(on, fn, k)) => RightGrows(phi, n, cells, cells', goal, k, Call(phi, fn, Unit), Some(on));
    case Start(BothComp(a, b, k)) =>
      RightGrows(phi, n, cells, cells', goal, k, Pair(ValueOf(phi, n, a), ValueOf(phi, n, b)), None);
    case Resume(k, v, s) => RightGrows(phi, n, cells, cells', goal, k, v, s);
    case SubmitTask(on, fn, k) => RightGrows(phi, n, cells, cells', goal, k, Call(phi, fn, Unit), Some(on));
    case MapTask(on, fn, v, s, k, up) => RightGrows(phi, n, cells, cells', goal, MapCont(fn, k, up), v, s);
    case MapOkTask(on, fn, v, s, k, up) => RightGrows(phi, n, cells, cells', goal, MapOkCont(fn, k, up), v, s);
    case Check(_) =>
  }

  /** A continuation ends at the root or at a cell that exists. */
  lemma {:induction false} RightTarget(phi: Phi, n: nat, cells: seq<Cell>, goal: Out, k: Cont, v: Value, s: State)
    requires Right(phi, n, cells, goal, k, v, s)
    ensures TargetOf(k).Side? ==> TargetOf(k).c < |cells|
    decreases k
  {
    match k
    case Final =>
    case MapCont(fn, k1, up) => RightTarget(phi, n, cells, goal, k1, Call(phi, fn, v), s);
    case MapOkCont(fn, k1, up) => RightTarget(phi, n, cells, goal, k1, OverOk(phi, fn, v), s);
    case ViaCont(on, k1) => RightTarget(phi, n, cells, goal, k1, v, Some(on));
    case FlattenCont(k1) => RightTarget(phi, n, cells, goal, k1, ValueOf(phi, n, v.f), s);
    case InnerCont(k1, s1) => RightTarget(phi, n, cells, goal, k1, v, s1);
    case Binder(_, _) =>
  }

  lemma RightActTarget(phi: Phi, n: nat, cells: seq<Cell>, goal: Out, act: Activity)
    requires RightAct(phi, n, cells, goal, act)
    ensures match ActTarget(act) case Some(Side(c, _)) => c < |cells| case _ => true
  {
    match act
    case Start(ReadyComp(v, k)) => RightTarget(phi, n, cells, goal, k, v, None);
    case Start(SubmitComp(on, fn, k)) => RightTarget(phi, n, cells, goal, k, Call(phi, fn, Unit), Some(on));
    case Start(BothComp(a, b, k)) => RightTarget(phi, n, cells, goal, k, Pair(ValueOf(phi, n, a), ValueOf(phi, n, b)), None);
    case Resume(k, v, s) => RightTarget(phi, n, cells, goal, k, v, s);
    case SubmitTask(on, fn, k) => RightTarget(phi, n, cells, goal, k, Call(phi, fn, Unit), Some(on));
    case MapTask(on, fn, v, s, k, up) => RightTarget(phi, n, cells, goal, MapCont(fn, k, up), v, s);
    case MapOkTask(on, fn, v, s, k, up) => RightTarget(phi, n, cells, goal, MapOkCont(fn, k, up), v, s);
    case Check(_) =>
  }

  // ---- counting after a step ----------------------------------------------------------------------------------

  lemma ActTokensReplace(acts: seq<Activity>, i: nat, new_: seq<Activity>, x: Target)
    requires i < |acts|
    ensures Sum(ActTokens(acts[..i] + new_ + acts[i + 1..], x)) == Sum(ActTokens(acts, x)) - One(ActTarget(acts[i]) == Some(x)) + Sum(ActTokens(new_, x))
  {
    var t := ActTokens(acts, x);
    assert ActTokens(acts[..i] + new_ + acts[i + 1..], x) == t[..i] + ActTokens(new_, x) + t[i + 1..];
    SumReplace(t, i, ActTokens(new_, x));
  }

  lemma ChecksReplace(acts: seq<Activity>, i: nat, new_: seq<Activity>, c: nat)
    requires i < |acts|
    ensures Sum(Checks(acts[..i] + new_ + acts[i + 1..], c)) == Sum(Checks(acts, c)) - One(acts[i] == Check(c)) + Sum(Checks(new_, c))
  {
    var t := Checks(acts, c);
    assert Checks(acts[..i] + new_ + acts[i + 1..], c) == t[..i] + Checks(new_, c) + t[i + 1..];
    SumReplace(t, i, Checks(new_, c));
  }

  lemma SumOne(x: int)
    ensures Sum([x]) == x
  {
    assert [x][1..] == [];
  }

  /** One activity takes the place of another, bound for the same target. */
  lemma OneForOne(phi: Phi, n: nat, goal: Out, cf: Config, i: nat, act: Activity, cf': Config)
    requires Inv(phi, n, goal, cf) && i < |cf.acts| && cf' == Replace(cf, i, [act]).(calls := cf'.calls)
    requires RightAct(phi, n, cf.cells, goal, act) && ActTarget(act) == ActTarget(cf.acts[i]) && !act.Check? && !cf.acts[i].Check?
    requires forall j :: 0 <= j < |cf'.calls| ==> Eval(phi, n, cf'.calls[j].up) == Some(Out(cf'.calls[j].arg, cf'.calls[j].on))
    ensures Inv(phi, n, goal, cf')
  {
    forall j | 0 <= j < |cf'.acts| ensures RightAct(phi, n, cf'.cells, goal, cf'.acts[j]) {
      if j != i { assert cf'.acts[j] == cf.acts[j]; assert RightAct(phi, n, cf.cells, goal, cf.acts[j]); }
    }
    forall c | 0 <= c < |cf'.cells| ensures CellOk(phi, n, goal, cf', c) {
      assert CellOk(phi, n, goal, cf, c);
      SameChecks(cf.acts, i, act, c);
    }
    forall x ensures Token(cf, x) ==> Token(cf', x) { SameTokens(cf.acts, i, act, x); }
  }

  lemma SameChecks(acts: seq<Activity>, i: nat, act: Activity, c: nat)
    requires i < |acts| && !acts[i].Check? && !act.Check?
    ensures Sum(Checks(acts[..i] + [act] + acts[i + 1..], c)) == Sum(Checks(acts, c))
  {
    ChecksReplace(acts, i, [act], c);
    assert Checks([act], c) == [0];
    SumOne(0);
  }

  lemma SameTokens(acts: seq<Activity>, i: nat, act: Activity, x: Target)
    requires i < |acts| && ActTarget(acts[i]) == ActTarget(act)
    ensures Sum(ActTokens(acts[..i] + [act] + acts[i + 1..], x)) == Sum(ActTokens(acts, x))
  {
    ActTokensReplace(acts, i, [act], x);
    assert ActTokens([act], x) == [One(ActTarget(act) == Some(x))];
    SumOne(One(ActTarget(act) == Some(x)));
  }
}

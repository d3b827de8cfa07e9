/**
Every run of a compiled future, step by step: the invariant is kept, the work left
decreases, and no activity is ever stuck.
*/
module FuturesRuns {
  import opened Futures
  import opened FuturesProof
  import opened Sums

  // ---- activities that turn into one other --------------------------------------------------

  predicate Plain(act: Activity)
  {
    match act
    case Start(comp) => !comp.BothComp?
    case Resume(k, v, s) => !k.Final? && !k.Binder?
    case Check(_) => false
    case _ => true
  }

  function Successor(phi: Phi, act: Activity): Activity
    requires Plain(act) && Able(Config([], [], [], []), act)
  {
    match act
    case Start(ReadyComp(v, k)) => Resume(k, v, None)
    case Start(SubmitComp(on, fn, k)) => SubmitTask(on, fn, k)
    case SubmitTask(on, fn, k) => Resume(k, Call(phi, fn, Unit), Some(on))
    case MapTask(_, fn, v, s, k, _) => Resume(k, Call(phi, fn, v), s)
    case MapOkTask(_, fn, v, s, k, _) => Resume(k, OverOk(phi, fn, v), s)
    case Resume(MapCont(fn, k, up), v, s) => if s.None? then Resume(k, Call(phi, fn, v), s) else MapTask(s.value, fn, v, s, k, up)
    case Resume(MapOkCont(fn, k, up), v, s) => if s.None? then Resume(k, OverOk(phi, fn, v), s) else MapOkTask(s.value, fn, v, s, k, up)
    case Resume(ViaCont(on, k), v, s) => Resume(k, v, Some(on))
    case Resume(FlattenCont(k), v, s) => Start(Materialize(v.f, InnerCont(k, s)))
    case Resume(InnerCont(k, s1), v, s) => Resume(k, v, s1)
  }

  function NewCalls(act: Activity): seq<Called>
  {
    match act
    case MapTask(on, fn, v, _, _, up) => [Called(fn, v, Some(on), up)]
    case MapOkTask(on, fn, v, _, _, up) => if v.Ok? then [Called(fn, v, Some(on), up)] else []
    case Resume(MapCont(fn, _, up), v, s) => if s.None? then [Called(fn, v, None, up)] else []
    case Resume(MapOkCont(fn, _, up), v, s) => if s.None? && v.Ok? then [Called(fn, v, None, up)] else []
    case _ => []
  }

  lemma PlainRuns(phi: Phi, cf: Config, i: nat)
    requires i < |cf.acts| && Plain(cf.acts[i]) && Able(cf, cf.acts[i])
    ensures Able(Config([], [], [], []), cf.acts[i])
    ensures Run(phi, cf, i) == Replace(cf, i, [Successor(phi, cf.acts[i])]).(calls := cf.calls + NewCalls(cf.acts[i]))
  {
    match cf.acts[i]
    case Resume(MapCont(_, _, _), _, _) => assert cf.calls + [] == cf.calls;
    case Resume(MapOkCont(_, _, _), _, _) => assert cf.calls + [] == cf.calls;
    case _ => assert cf.calls + [] == cf.calls;
  }

  /** The successor is owed the same, is bound for the same target and has less to do. */
  lemma SuccessorRight(phi: Phi, n: nat, cells: seq<Cell>, goal: Out, act: Activity)
    requires Plain(act) && Able(Config([], [], [], []), act) && RightAct(phi, n, cells, goal, act)
    ensures RightAct(phi, n, cells, goal, Successor(phi, act))
    ensures ActTarget(Successor(phi, act)) == ActTarget(act) && !Successor(phi, act).Check?
  {
    match act
    case Resume(FlattenCont(k), v, s) =>
      MaterializeRight(phi, n, cells, goal, v.f, InnerCont(k, s));
      MaterializeTarget(v.f, InnerCont(k, s));
    case _ =>
  }

  lemma SuccessorWork(phi: Phi, n: nat, cells: seq<Cell>, goal: Out, act: Activity)
    requires Plain(act) && Able(Config([], [], [], []), act) && RightAct(phi, n, cells, goal, act)
    ensures WorkAct(phi, n, Successor(phi, act)) < WorkAct(phi, n, act)
  {
    match act
    case Resume(FlattenCont(k), v, s) => MaterializeWork(phi, n, v.f, InnerCont(k, s));
    case _ =>
  }

  /** User functions run on the scheduler that their producer determines. */
  lemma NewCallsRight(phi: Phi, n: nat, cells: seq<Cell>, goal: Out, act: Activity)
    requires RightAct(phi, n, cells, goal, act)
    ensures forall j :: 0 <= j < |NewCalls(act)| ==>
              Eval(phi, n, NewCalls(act)[j].up) == Some(Out(NewCalls(act)[j].arg, NewCalls(act)[j].on))
  {}

  lemma PlainKeeps(phi: Phi, n: nat, goal: Out, cf: Config, i: nat)
    requires Inv(phi, n, goal, cf) && i < |cf.acts| && Plain(cf.acts[i]) && Able(cf, cf.acts[i])
    ensures Inv(phi, n, goal, Run(phi, cf, i))
  {
    var act, cf' := cf.acts[i], Run(phi, cf, i);
    assert RightAct(phi, n, cf.cells, goal, act);
    PlainRuns(phi, cf, i);
    SuccessorRight(phi, n, cf.cells, goal, act);
    NewCallsRight(phi, n, cf.cells, goal, act);
    OneForOne(phi, n, goal, cf, i, Successor(phi, act), cf');
  }

  // ---- the end of a chain -------------------------------------------------------------------------

  lemma FinalKeeps(phi: Phi, n: nat, goal: Out, cf: Config, i: nat)
    requires Inv(phi, n, goal, cf) && i < |cf.acts| && cf.acts[i].Resume? && cf.acts[i].k.Final?
    ensures Inv(phi, n, goal, Run(phi, cf, i))
  {
    var act, cf' := cf.acts[i], Run(phi, cf, i);
    assert RightAct(phi, n, cf.cells, goal, act);
    forall j | 0 <= j < |cf'.acts| ensures RightAct(phi, n, cf'.cells, goal, cf'.acts[j]) {
      assert RightAct(phi, n, cf.cells, goal, cf.acts[if j < i then j else j + 1]);
    }
    forall c | 0 <= c < |cf'.cells| ensures CellOk(phi, n, goal, cf', c) {
      assert CellOk(phi, n, goal, cf, c);
      ChecksReplace(cf.acts, i, [], c);
    }
    forall x ensures Token(cf, x) ==> Token(cf', x) {
      ActTokensReplace(cf.acts, i, [], x);
    }
  }

  // ---- Both -------------------------------------------------------------------------------------------

  /** The activities around the one that ran are still owed what they were. */
  lemma ActsAfter(phi: Phi, n: nat, goal: Out, cf: Config, i: nat, new_: seq<Activity>, cf': Config)
    requires Inv(phi, n, goal, cf) && i < |cf.acts| && Grows(cf.cells, cf'.cells)
    requires cf'.acts == cf.acts[..i] + new_ + cf.acts[i + 1..]
    requires forall j :: 0 <= j < |new_| ==> RightAct(phi, n, cf'.cells, goal, new_[j])
    ensures forall j {:trigger RightAct(phi, n, cf'.cells, goal, cf'.acts[j])} ::
              0 <= j < |cf'.acts| ==> RightAct(phi, n, cf'.cells, goal, cf'.acts[j])
  {
    forall j | 0 <= j < |cf'.acts| ensures RightAct(phi, n, cf'.cells, goal, cf'.acts[j]) {
      if j < i || j >= i + |new_| {
        var o := if j < i then j else j + 1 - |new_|;
        assert cf'.acts[j] == cf.acts[o] && RightAct(phi, n, cf.cells, goal, cf.acts[o]);
        RightActGrows(phi, n, cf.cells, cf'.cells, goal, cf.acts[o]);
      } else {
        assert cf'.acts[j] == new_[j - i];
      }
    }
  }

  /** A cell that keeps its continuation, whose sides and checks still balance. */
  lemma CellAfter(phi: Phi, n: nat, goal: Out, cf: Config, cf': Config, d: nat)
    requires d < |cf.cells| && CellOk(phi, n, goal, cf, d) && Grows(cf.cells, cf'.cells)
    requires var cell, cell' := cf.cells[d], cf'.cells[d];
             && cell'.k == cell.k
             && (cell'.a.Some? ==> cell'.a.value == ValueOf(phi, n, cell.ea)) && (cell'.b.Some? ==> cell'.b.value == ValueOf(phi, n, cell.eb))
             && cell'.finished + Sum(Checks(cf'.acts, d)) == One(cell'.a.Some?) + One(cell'.b.Some?)
    ensures CellOk(phi, n, goal, cf', d)
  {
    var cell := cf.cells[d];
    RightGrows(phi, n, cf.cells, cf'.cells, goal, cell.k, Pair(ValueOf(phi, n, cell.ea), ValueOf(phi, n, cell.eb)), None);
  }

  lemma BinderCells(phi: Phi, n: nat, goal: Out, cf: Config, i: nat, cf': Config, d: nat)
    requires Inv(phi, n, goal, cf) && i < |cf.acts| && cf.acts[i].Resume? && cf.acts[i].k.Binder? && Able(cf, cf.acts[i])
    requires cf' == Run(phi, cf, i) && d < |cf.cells| && Reached(cf, Side(cf.acts[i].k.c, cf.acts[i].k.first)) == 0
    ensures CellOk(phi, n, goal, cf', d)
  {
    var c := cf.acts[i].k.c;
    assert RightAct(phi, n, cf.cells, goal, cf.acts[i]) && CellOk(phi, n, goal, cf, d);
    ChecksReplace(cf.acts, i, [Check(c)], d);
    SumOne(One(d == c));
    assert Checks([Check(c)], d) == [One(d == c)];
    CellAfter(phi, n, goal, cf, cf', d);
  }

  /** A value arrives at a cell: the side was empty, because its only token has just been used. */
  lemma BinderKeeps(phi: Phi, n: nat, goal: Out, cf: Config, i: nat)
    requires Inv(phi, n, goal, cf) && i < |cf.acts| && cf.acts[i].Resume? && cf.acts[i].k.Binder? && Able(cf, cf.acts[i])
    ensures Inv(phi, n, goal, Run(phi, cf, i))
  {
    var act, cf' := cf.acts[i], Run(phi, cf, i);
    var Binder(c, first) := act.k;
    assert RightAct(phi, n, cf.cells, goal, act) && CellOk(phi, n, goal, cf, c);
    assert Token(cf, Side(c, first));
    SideWasEmpty(cf, i, Side(c, first));
    ActsAfter(phi, n, goal, cf, i, [Check(c)], cf');
    forall d | 0 <= d < |cf'.cells| ensures CellOk(phi, n, goal, cf', d) { BinderCells(phi, n, goal, cf, i, cf', d); }
    forall x ensures Token(cf, x) ==> Token(cf', x) { if Token(cf, x) { BinderToken(cf, i, c, first, cf', act.v, x); } }
  }

  lemma SideWasEmpty(cf: Config, i: nat, x: Target)
    requires i < |cf.acts| && ActTarget(cf.acts[i]) == Some(x) && Token(cf, x)
    ensures Reached(cf, x) == 0
  {
    var t, z := ActTokens(cf.acts, x), CellTokens(cf.cells, x);
    SumZero(z);
    SumUpdate(t, i, 0);
    SumZero(t[i := 0]);
    assert t[i] == 1;
  }

  lemma BinderToken(cf: Config, i: nat, c: nat, first: bool, cf': Config, v: Value, x: Target)
    requires i < |cf.acts| && c < |cf.cells| && ActTarget(cf.acts[i]) == Some(Side(c, first)) && Reached(cf, Side(c, first)) == 0
    requires cf'.acts == cf.acts[..i] + [Check(c)] + cf.acts[i + 1..] && cf'.done == cf.done
    requires var cell := cf.cells[c]; cf'.cells == cf.cells[c := if first then cell.(a := Some(v)) else cell.(b := Some(v))]
    requires Token(cf, x)
    ensures Token(cf', x)
  {
    ActTokensReplace(cf.acts, i, [Check(c)], x);
    SumOne(0);
    assert ActTokens([Check(c)], x) == [0];
    assert CellTokens(cf'.cells, x) == CellTokens(cf.cells, x);
  }

  lemma CheckAble(phi: Phi, n: nat, goal: Out, cf: Config, i: nat)
    requires Inv(phi, n, goal, cf) && i < |cf.acts| && cf.acts[i].Check?
    ensures Able(cf, cf.acts[i]) && cf.cells[cf.acts[i].c].finished < 2
  {
    var c := cf.acts[i].c;
    assert RightAct(phi, n, cf.cells, goal, cf.acts[i]) && CellOk(phi, n, goal, cf, c);
    var t := Checks(cf.acts, c);
    SumUpdate(t, i, 0);
    SumZero(t[i := 0]);
    assert t[i] == 1;
  }

  /** What a check makes of itself. */
  function Fires(cell: Cell): seq<Activity>
    requires cell.finished == 1 ==> cell.a.Some? && cell.b.Some?
  {
    if cell.finished == 1 then [Resume(cell.k, Pair(cell.a.value, cell.b.value), None)] else []
  }

  lemma CheckToken(cf: Config, i: nat, cf': Config, c: nat, x: Target)
    requires i < |cf.acts| && cf.acts[i] == Check(c) && Able(cf, cf.acts[i]) && Token(cf, x) && cf.cells[c].finished < 2
    requires cf'.cells == cf.cells[c := cf.cells[c].(finished := cf.cells[c].finished + 1)] && cf'.done == cf.done
    requires cf'.acts == cf.acts[..i] + Fires(cf.cells[c]) + cf.acts[i + 1..]
    ensures Token(cf', x)
  {
    var cell := cf.cells[c];
    var t := CellTokens(cf.cells, x);
    var w := One(cell.finished + 1 < 2 && TargetOf(cell.k) == x);
    assert CellTokens(cf'.cells, x) == t[c := w];
    SumUpdate(t, c, w);
    ActTokensReplace(cf.acts, i, Fires(cell), x);
    if cell.finished == 1 {
      SumOne(One(TargetOf(cell.k) == x));
      assert ActTokens(Fires(cell), x) == [One(TargetOf(cell.k) == x)];
    }
  }

  lemma CheckCells(phi: Phi, n: nat, goal: Out, cf: Config, i: nat, cf': Config, d: nat)
    requires Inv(phi, n, goal, cf) && i < |cf.acts| && cf.acts[i].Check? && Able(cf, cf.acts[i]) && cf' == Run(phi, cf, i) && d < |cf.cells|
    ensures CellOk(phi, n, goal, cf', d)
  {
    var cell := cf.cells[cf.acts[i].c];
    assert CellOk(phi, n, goal, cf, d);
    ChecksReplace(cf.acts, i, Fires(cell), d);
    SumAllZero(Checks(Fires(cell), d));
    CellAfter(phi, n, goal, cf, cf', d);
  }

  lemma CheckKeeps(phi: Phi, n: nat, goal: Out, cf: Config, i: nat)
    requires Inv(phi, n, goal, cf) && i < |cf.acts| && cf.acts[i].Check? && Able(cf, cf.acts[i])
    ensures Inv(phi, n, goal, Run(phi, cf, i))
  {
    var cf', c := Run(phi, cf, i), cf.acts[i].c;
    CheckAble(phi, n, goal, cf, i);
    assert CellOk(phi, n, goal, cf, c);
    var cell := cf.cells[c];
    if cell.finished == 1 {
      RightGrows(phi, n, cf.cells, cf'.cells, goal, cell.k, Pair(ValueOf(phi, n, cell.ea), ValueOf(phi, n, cell.eb)), None);
    }
    ActsAfter(phi, n, goal, cf, i, Fires(cell), cf');
    forall d | 0 <= d < |cf'.cells| ensures CellOk(phi, n, goal, cf', d) { CheckCells(phi, n, goal, cf, i, cf', d); }
    forall x ensures Token(cf, x) ==> Token(cf', x) { if Token(cf, x) { CheckToken(cf, i, cf', c, x); } }
  }

  // ---- Both starts -------------------------------------------------------------------------------------

  function BothStarts(a: Expr, b: Expr, c: nat): seq<Activity>
  {
    [Start(Materialize(a, Binder(c, true))), Start(Materialize(b, Binder(c, false)))]
  }

  lemma SumTwo(x: int, y: int)
    ensures Sum([x, y]) == x + y
  {
    assert [x, y][1..] == [y];
    SumOne(y);
  }

  lemma StartTokens(a: Expr, b: Expr, c: nat, x: Target)
    ensures Sum(ActTokens(BothStarts(a, b, c), x)) == One(x.Side? && x.c == c)
  {
    MaterializeTarget(a, Binder(c, true));
    MaterializeTarget(b, Binder(c, false));
    var l, r := One(x == Side(c, true)), One(x == Side(c, false));
    assert ActTokens(BothStarts(a, b, c), x) == [l, r];
    SumTwo(l, r);
  }

  lemma BothToken(phi: Phi, n: nat, goal: Out, cf: Config, i: nat, cf': Config, x: Target)
    requires Inv(phi, n, goal, cf) && i < |cf.acts| && cf.acts[i].Start? && cf.acts[i].comp.BothComp? && cf' == Run(phi, cf, i)
    requires Token(cf, x) || (x.Side? && x.c == |cf.cells|)
    ensures Token(cf', x)
  {
    var BothComp(a, b, k) := cf.acts[i].comp;
    var c := |cf.cells|;
    ActTokensReplace(cf.acts, i, BothStarts(a, b, c), x);
    StartTokens(a, b, c, x);
    CellTokensPush(cf.cells, Cell(None, None, 0, k, a, b), x);
    if x.Side? && x.c == c { NobodyYet(phi, n, goal, cf, x); }
  }

  lemma CellTokensPush(cells: seq<Cell>, cell: Cell, x: Target)
    requires cell.finished == 0
    ensures Sum(CellTokens(cells + [cell], x)) == Sum(CellTokens(cells, x)) + One(TargetOf(cell.k) == x)
  {
    assert CellTokens(cells + [cell], x) == CellTokens(cells, x) + [One(TargetOf(cell.k) == x)];
    SumConcat(CellTokens(cells, x), [One(TargetOf(cell.k) == x)]);
    SumOne(One(TargetOf(cell.k) == x));
  }

  /** Nobody is bound for a cell that does not exist. */
  lemma NobodyYet(phi: Phi, n: nat, goal: Out, cf: Config, x: Target)
    requires Inv(phi, n, goal, cf) && x.Side? && x.c == |cf.cells|
    ensures Sum(ActTokens(cf.acts, x)) == 0 && Sum(CellTokens(cf.cells, x)) == 0
    ensures forall i :: 0 <= i < |cf.acts| ==> ActTarget(cf.acts[i]) != Some(x)
  {
    forall i | 0 <= i < |cf.acts| ensures ActTarget(cf.acts[i]) != Some(x) {
      assert RightAct(phi, n, cf.cells, goal, cf.acts[i]);
      RightActTarget(phi, n, cf.cells, goal, cf.acts[i]);
    }
    forall d | 0 <= d < |cf.cells| ensures TargetOf(cf.cells[d].k) != x { assert CellOk(phi, n, goal, cf, d); }
    SumAllZero(ActTokens(cf.acts, x));
    SumAllZero(CellTokens(cf.cells, x));
  }

  lemma BothKeeps(phi: Phi, n: nat, goal: Out, cf: Config, i: nat)
    requires Inv(phi, n, goal, cf) && i < |cf.acts| && cf.acts[i].Start? && cf.acts[i].comp.BothComp?
    ensures Inv(phi, n, goal, Run(phi, cf, i))
  {
    var BothComp(a, b, k) := cf.acts[i].comp;
    var cf', c := Run(phi, cf, i), |cf.cells|;
    assert RightAct(phi, n, cf.cells, goal, cf.acts[i]);
    assert Grows(cf.cells, cf'.cells);
    MaterializeRight(phi, n, cf'.cells, goal, a, Binder(c, true));
    MaterializeRight(phi, n, cf'.cells, goal, b, Binder(c, false));
    ActsAfter(phi, n, goal, cf, i, BothStarts(a, b, c), cf');
    forall d | 0 <= d < |cf'.cells| ensures CellOk(phi, n, goal, cf', d) { BothCells(phi, n, goal, cf, i, cf', d); }
    BothToken(phi, n, goal, cf, i, cf', Root);
    forall d, first | 0 <= d < |cf'.cells| ensures Token(cf', Side(d, first)) {
      if d < c { assert Token(cf, Side(d, first)); }
      BothToken(phi, n, goal, cf, i, cf', Side(d, first));
    }
  }

  lemma BothCells(phi: Phi, n: nat, goal: Out, cf: Config, i: nat, cf': Config, d: nat)
    requires Inv(phi, n, goal, cf) && i < |cf.acts| && cf.acts[i].Start? && cf.acts[i].comp.BothComp? && cf' == Run(phi, cf, i)
    requires d <= |cf.cells|
    ensures CellOk(phi, n, goal, cf', d)
  {
    var BothComp(a, b, k) := cf.acts[i].comp;
    var c := |cf.cells|;
    ChecksReplace(cf.acts, i, BothStarts(a, b, c), d);
    SumAllZero(Checks(BothStarts(a, b, c), d));
    if d < c {
      assert CellOk(phi, n, goal, cf, d);
      CellAfter(phi, n, goal, cf, cf', d);
    } else {
      assert RightAct(phi, n, cf.cells, goal, cf.acts[i]);
      var v := Pair(ValueOf(phi, n, a), ValueOf(phi, n, b));
      RightTarget(phi, n, cf.cells, goal, k, v, None);
      RightGrows(phi, n, cf.cells, cf'.cells, goal, k, v, None);
      forall j | 0 <= j < |cf.acts| ensures cf.acts[j] != Check(c) { assert RightAct(phi, n, cf.cells, goal, cf.acts[j]); }
      SumAllZero(Checks(cf.acts, c));
    }
  }

  // ---- nothing gets stuck ------------------------------------------------------------------------------------

  lemma AlwaysAble(phi: Phi, n: nat, goal: Out, cf: Config, i: nat)
    requires Inv(phi, n, goal, cf) && i < |cf.acts|
    ensures Able(cf, cf.acts[i])
  {
    assert RightAct(phi, n, cf.cells, goal, cf.acts[i]);
    if cf.acts[i].Check? { CheckAble(phi, n, goal, cf, i); }
  }

  lemma RunKeeps(phi: Phi, n: nat, goal: Out, cf: Config, i: nat)
    requires Inv(phi, n, goal, cf) && i < |cf.acts| && Able(cf, cf.acts[i])
    ensures Inv(phi, n, goal, Run(phi, cf, i))
  {
    var act := cf.acts[i];
    if Plain(act) { PlainKeeps(phi, n, goal, cf, i); }
    else if act.Check? { CheckKeeps(phi, n, goal, cf, i); }
    else if act.Start? { BothKeeps(phi, n, goal, cf, i); }
    else if act.k.Final? { FinalKeeps(phi, n, goal, cf, i); }
    else { BinderKeeps(phi, n, goal, cf, i); }
  }

  // ---- every run ends ------------------------------------------------------------------------------------------

  function ActWork(phi: Phi, n: nat, acts: seq<Activity>): seq<int>
  {
    seq(|acts|, i requires 0 <= i < |acts| => WorkAct(phi, n, acts[i]))
  }

  function CellLeft(phi: Phi, n: nat, cell: Cell): int
  {
    if cell.finished < 2 then Work(phi, n, cell.k, Pair(ValueOf(phi, n, cell.ea), ValueOf(phi, n, cell.eb)), None) else 0
  }

  function CellWork(phi: Phi, n: nat, cells: seq<Cell>): seq<int>
  {
    seq(|cells|, i requires 0 <= i < |cells| => CellLeft(phi, n, cells[i]))
  }

  function Left(phi: Phi, n: nat, cf: Config): int
  {
    Sum(ActWork(phi, n, cf.acts)) + Sum(CellWork(phi, n, cf.cells))
  }

  lemma WorkReplace(phi: Phi, n: nat, acts: seq<Activity>, i: nat, new_: seq<Activity>)
    requires i < |acts|
    ensures Sum(ActWork(phi, n, acts[..i] + new_ + acts[i + 1..])) == Sum(ActWork(phi, n, acts)) - WorkAct(phi, n, acts[i]) + Sum(ActWork(phi, n, new_))
  {
    var t := ActWork(phi, n, acts);
    assert ActWork(phi, n, acts[..i] + new_ + acts[i + 1..]) == t[..i] + ActWork(phi, n, new_) + t[i + 1..];
    SumReplace(t, i, ActWork(phi, n, new_));
  }

  lemma OneLess(phi: Phi, n: nat, goal: Out, cf: Config, i: nat)
    requires Inv(phi, n, goal, cf) && i < |cf.acts| && Plain(cf.acts[i]) && Able(cf, cf.acts[i])
    ensures Left(phi, n, Run(phi, cf, i)) < Left(phi, n, cf)
  {
    var act := cf.acts[i];
    assert RightAct(phi, n, cf.cells, goal, act);
    PlainRuns(phi, cf, i);
    SuccessorWork(phi, n, cf.cells, goal, act);
    var next := Successor(phi, act);
    WorkReplace(phi, n, cf.acts, i, [next]);
    assert ActWork(phi, n, [next]) == [WorkAct(phi, n, next) as int];
    SumOne(WorkAct(phi, n, next));
  }

  lemma EndLess(phi: Phi, n: nat, goal: Out, cf: Config, i: nat)
    requires Inv(phi, n, goal, cf) && i < |cf.acts| && Able(cf, cf.acts[i])
    requires cf.acts[i].Resume? && (cf.acts[i].k.Final? || cf.acts[i].k.Binder?)
    ensures Left(phi, n, Run(phi, cf, i)) < Left(phi, n, cf)
  {
    var act, cf' := cf.acts[i], Run(phi, cf, i);
    if act.k.Final? {
      WorkReplace(phi, n, cf.acts, i, []);
    } else {
      WorkReplace(phi, n, cf.acts, i, [Check(act.k.c)]);
      assert ActWork(phi, n, [Check(act.k.c)]) == [1];
      SumOne(1);
      assert CellWork(phi, n, cf'.cells) == CellWork(phi, n, cf.cells);
    }
  }

  lemma CheckLess(phi: Phi, n: nat, goal: Out, cf: Config, i: nat)
    requires Inv(phi, n, goal, cf) && i < |cf.acts| && Able(cf, cf.acts[i]) && cf.acts[i].Check?
    ensures Left(phi, n, Run(phi, cf, i)) < Left(phi, n, cf)
  {
    var cf', c := Run(phi, cf, i), cf.acts[i].c;
    CheckAble(phi, n, goal, cf, i);
    assert CellOk(phi, n, goal, cf, c);
    var cell, t := cf.cells[c], CellWork(phi, n, cf.cells);
    WorkReplace(phi, n, cf.acts, i, Fires(cell));
    assert CellWork(phi, n, cf'.cells) == t[c := CellLeft(phi, n, cf'.cells[c])];
    SumUpdate(t, c, CellLeft(phi, n, cf'.cells[c]));
    if cell.finished == 1 {
      assert ActWork(phi, n, Fires(cell)) == [CellLeft(phi, n, cell)];
      SumOne(CellLeft(phi, n, cell));
    }
  }

  lemma BothLess(phi: Phi, n: nat, goal: Out, cf: Config, i: nat)
    requires Inv(phi, n, goal, cf) && i < |cf.acts| && cf.acts[i].Start? && cf.acts[i].comp.BothComp?
    ensures Left(phi, n, Run(phi, cf, i)) < Left(phi, n, cf)
  {
    var BothComp(a, b, k) := cf.acts[i].comp;
    var cf', c := Run(phi, cf, i), |cf.cells|;
    assert RightAct(phi, n, cf.cells, goal, cf.acts[i]);
    MaterializeWork(phi, n, a, Binder(c, true));
    MaterializeWork(phi, n, b, Binder(c, false));
    WorkReplace(phi, n, cf.acts, i, BothStarts(a, b, c));
    assert ActWork(phi, n, BothStarts(a, b, c)) == [Cost(phi, n, a) as int + 2, Cost(phi, n, b) as int + 2];
    SumTwo(Cost(phi, n, a) + 2, Cost(phi, n, b) + 2);
    var w := CellLeft(phi, n, cf'.cells[c]);
    assert CellWork(phi, n, cf'.cells) == CellWork(phi, n, cf.cells) + [w];
    SumConcat(CellWork(phi, n, cf.cells), [w]);
    SumOne(w);
  }

  lemma StepLess(phi: Phi, n: nat, goal: Out, cf: Config, i: nat)
    requires Inv(phi, n, goal, cf) && i < |cf.acts| && Able(cf, cf.acts[i])
    ensures Left(phi, n, Run(phi, cf, i)) < Left(phi, n, cf)
  {
    var act := cf.acts[i];
    if Plain(act) { OneLess(phi, n, goal, cf, i); }
    else if act.Check? { CheckLess(phi, n, goal, cf, i); }
    else if act.Start? { BothLess(phi, n, goal, cf, i); }
    else { EndLess(phi, n, goal, cf, i); }
  }

  lemma LeftPositive(phi: Phi, n: nat, cf: Config)
    ensures Left(phi, n, cf) >= 0
  {
    SumZero(ActWork(phi, n, cf.acts));
    SumZero(CellWork(phi, n, cf.cells));
  }

  // ---- exactly once -------------------------------------------------------------------------------------------

  /** With no activity left, everything has been reached: a cell that waits would wait for a younger one. */
  lemma {:induction false} NobodyWaits(phi: Phi, n: nat, goal: Out, cf: Config, x: Target)
    requires Inv(phi, n, goal, cf) && cf.acts == [] && Token(cf, x) && (x.Side? ==> x.c < |cf.cells|)
    ensures Reached(cf, x) == 1
    decreases if x.Side? then |cf.cells| - x.c else |cf.cells| + 1
  {
    var z := CellTokens(cf.cells, x);
    if Reached(cf, x) != 1 {
      if forall c :: 0 <= c < |cf.cells| ==> z[c] == 0 { SumAllZero(z); assert false; }
      var c :| 0 <= c < |cf.cells| && z[c] != 0;
      assert CellOk(phi, n, goal, cf, c);
      var first := cf.cells[c].a.None?;
      assert Token(cf, Side(c, first));
      NobodyWaits(phi, n, goal, cf, Side(c, first));
    }
  }

  lemma BeginHolds(phi: Phi, n: nat, e: Expr)
    requires Has(phi, n, e)
    ensures Inv(phi, n, Eval(phi, n, e).value, Begin(e)) && Left(phi, n, Begin(e)) == Cost(phi, n, e) + 1
  {
    MaterializeRight(phi, n, [], Eval(phi, n, e).value, e, Final);
    BeginToken(e);
    BeginWork(phi, n, e);
  }

  lemma BeginToken(e: Expr)
    ensures Token(Begin(e), Root)
  {
    MaterializeTarget(e, Final);
    assert ActTokens(Begin(e).acts, Root) == [1];
    SumOne(1);
  }

  lemma BeginWork(phi: Phi, n: nat, e: Expr)
    requires Has(phi, n, e)
    ensures Left(phi, n, Begin(e)) == Cost(phi, n, e) + 1
  {
    var act := Start(Materialize(e, Final));
    MaterializeWork(phi, n, e, Final);
    assert ActWork(phi, n, [act]) == [WorkAct(phi, n, act) as int];
    SumOne(WorkAct(phi, n, act));
  }

  lemma {:induction false} RunHolds(phi: Phi, n: nat, e: Expr, run: seq<Config>, i: nat)
    requires Has(phi, n, e) && IsRun(phi, e, run) && i < |run|
    ensures Inv(phi, n, Eval(phi, n, e).value, run[i]) && Left(phi, n, run[i]) + i <= Cost(phi, n, e) + 1
  {
    var goal := Eval(phi, n, e).value;
    if i == 0 {
      BeginHolds(phi, n, e);
    } else {
      RunHolds(phi, n, e, run, i - 1);
      assert Step(phi, run[i - 1], run[i]);
      var j: nat :| 0 <= j < |run[i - 1].acts| && Able(run[i - 1], run[i - 1].acts[j]) && run[i] == Run(phi, run[i - 1], j);
      RunKeeps(phi, n, goal, run[i - 1], j);
      StepLess(phi, n, goal, run[i - 1], j);
    }
  }

  /**
  The main result.  Every run is finite; as long as activities are left, each of them can take
  a step; and when none is left, the final continuation has been resumed once, with the value
  of the expression and the scheduler it determines.
  */
  lemma RunsDeliver(phi: Phi, n: nat, e: Expr, run: seq<Config>)
    requires Eval(phi, n, e).Some? && IsRun(phi, e, run)
    ensures |run| <= Cost(phi, n, e) + 2
    ensures var cf := run[|run| - 1];
            && (forall i :: 0 <= i < |cf.acts| ==> Able(cf, cf.acts[i]))
            && (cf.acts == [] ==> cf.done == [Eval(phi, n, e).value])
            && (cf.done == [] || cf.done == [Eval(phi, n, e).value])
  {
    var last, goal := |run| - 1, Eval(phi, n, e).value;
    RunHolds(phi, n, e, run, last);
    var cf := run[last];
    LeftPositive(phi, n, cf);
    forall i | 0 <= i < |cf.acts| ensures Able(cf, cf.acts[i]) { AlwaysAble(phi, n, goal, cf, i); }
    SumZero(ActTokens(cf.acts, Root));
    SumZero(CellTokens(cf.cells, Root));
    if cf.acts == [] { NobodyWaits(phi, n, goal, cf, Root); }
  }

  /** Every function given to Map or MapOk runs on the scheduler that its producer determines, with the producer's value. */
  lemma CallsAreScheduled(phi: Phi, n: nat, e: Expr, run: seq<Config>, i: nat, j: nat)
    requires Eval(phi, n, e).Some? && IsRun(phi, e, run) && i < |run| && j < |run[i].calls|
    ensures Eval(phi, n, run[i].calls[j].up) == Some(Out(run[i].calls[j].arg, run[i].calls[j].on))
  {
    RunHolds(phi, n, e, run, i);
  }

  // ---- derived combinators -----------------------------------------------------------------------------------

  /** AndThen continues with the user's future on success, on the scheduler of its input, and passes errors through. */
  lemma AndThenMeans(phi: Phi, n: nat, e: Expr, f: Name)
    requires n > 0 && Has(phi, n, e) && (Eval(phi, n, e).value.v.Ok? || Eval(phi, n, e).value.v.Err?)
    ensures var o := Eval(phi, n, e).value;
            Eval(phi, n, AndThen(e, f)) ==
            if o.v.Err? then Some(o)
            else
              var r := phi(f, o.v.v);
              if r.Fut? && Has(phi, n - 1, r.f) then Some(Out(ValueOf(phi, n - 1, r.f), o.s)) else None
  {
    var o := Eval(phi, n, e).value;
    assert Eval(phi, n, Map(e, OnOk(f))) == Some(Out(Call(phi, OnOk(f), o.v), o.s));
  }

  lemma OrElseMeans(phi: Phi, n: nat, e: Expr, f: Name)
    requires n > 0 && Has(phi, n, e) && (Eval(phi, n, e).value.v.Ok? || Eval(phi, n, e).value.v.Err?)
    ensures var o := Eval(phi, n, e).value;
            Eval(phi, n, OrElse(e, f)) ==
            if o.v.Ok? then Some(o)
            else
              var r := phi(f, o.v.e);
              if r.Fut? && Has(phi, n - 1, r.f) then Some(Out(ValueOf(phi, n - 1, r.f), o.s)) else None
  {
    var o := Eval(phi, n, e).value;
    assert Eval(phi, n, Map(e, OnErr(f))) == Some(Out(Call(phi, OnErr(f), o.v), o.s));
  }
}

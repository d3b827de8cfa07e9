/**
Lazy futures (src/exe/future).  A future expression is compiled, by Materialize, into a
computation around the continuation of its consumer; starting the computation makes
continuations resume one another, directly or as tasks of a scheduler.  The model runs
all of this as a set of activities that may proceed in any order.  User functions are
given by an arbitrary interpretation `phi` of function names.
*/
module Futures {

  type Name = nat                // a user function
  type Scheduler = nat

  datatype Option<+X> = None | Some(value: X)

  type State = Option<Scheduler>  // None: no scheduler set

  datatype Value = Unit | Num(n: int) | Pair(a: Value, b: Value) | Ok(v: Value) | Err(e: Value) | Fut(f: Expr)

  /** The lambdas that AndThen and OrElse wrap around the user's function. */
  datatype Fun = User(f: Name) | OnOk(f: Name) | OnErr(f: Name)

  datatype Expr =
    | Ready(v: Value)
    | Just
    | Submit(on: Scheduler, fn: Fun)
    | Map(e: Expr, fn: Fun)
    | Via(e: Expr, on: Scheduler)
    | Flatten(e: Expr)
    | MapOk(e: Expr, fn: Fun)
    | Both(a: Expr, b: Expr)

  type Phi = (Name, Value) -> Value

  function Call(phi: Phi, fn: Fun, v: Value): Value
  {
    match fn
    case User(f) => phi(f, v)
    case OnOk(f) => if v.Ok? then phi(f, v.v) else Fut(Ready(v))
    case OnErr(f) => if v.Err? then phi(f, v.e) else Fut(Ready(v))
  }

  function FlatMap(e: Expr, fn: Fun): Expr
  {
    Flatten(Map(e, fn))
  }

  function AndThen(e: Expr, f: Name): Expr
  {
    FlatMap(e, OnOk(f))
  }

  function OrElse(e: Expr, f: Name): Expr
  {
    FlatMap(e, OnErr(f))
  }

  // ---- what an expression means ----------------------------------------------------------

  datatype Out = Out(v: Value, s: State)

  /**
  The value of a future and the scheduler its consumer runs on.  Futures inside futures are
  followed to the depth n; None if that is not enough or if Flatten or MapOk meets a value of
  the wrong type.
  */
  function Eval(phi: Phi, n: nat, e: Expr): Option<Out>
    decreases n, e
  {
    match e
    case Ready(v) => Some(Out(v, None))
    case Just => Some(Out(Unit, None))
    case Submit(on, fn) => Some(Out(Call(phi, fn, Unit), Some(on)))
    case Map(e1, fn) =>
      var r := Eval(phi, n, e1);
      if r.None? then None else Some(Out(Call(phi, fn, r.value.v), r.value.s))
    case Via(e1, on) =>
      var r := Eval(phi, n, e1);
      if r.None? then None else Some(Out(r.value.v, Some(on)))
    case Flatten(e1) =>
      var r := Eval(phi, n, e1);
      if r.None? || !r.value.v.Fut? || n == 0 then None
      else
        var i := Eval(phi, n - 1, r.value.v.f);
        if i.None? then None else Some(Out(i.value.v, r.value.s))
    case MapOk(e1, fn) =>
      var r := Eval(phi, n, e1);
      if r.None? || !(r.value.v.Ok? || r.value.v.Err?) then None
      else Some(Out(OverOk(phi, fn, r.value.v), r.value.s))
    case Both(a, b) =>
      var x, y := Eval(phi, n, a), Eval(phi, n, b);
      if x.None? || y.None? then None else Some(Out(Pair(x.value.v, y.value.v), None))
  }

  function OverOk(phi: Phi, fn: Fun, v: Value): Value
  {
    if v.Ok? then Ok(Call(phi, fn, v.v)) else v
  }

  // ---- continuations and computations --------------------------------------------------------

  /** `up` is history: the expression whose value a Map receives. */
  datatype Cont =
    | Final
    | MapCont(fn: Fun, k: Cont, up: Expr)
    | MapOkCont(fn: Fun, k: Cont, up: Expr)
    | ViaCont(on: Scheduler, k: Cont)
    | FlattenCont(k: Cont)
    | InnerCont(k: Cont, s: State)
    | Binder(c: nat, first: bool)

  datatype Comp =
    | ReadyComp(v: Value, k: Cont)
    | SubmitComp(on: Scheduler, fn: Fun, k: Cont)
    | BothComp(a: Expr, b: Expr, k: Cont)

  function Materialize(e: Expr, k: Cont): Comp
  {
    match e
    case Ready(v) => ReadyComp(v, k)
    case Just => ReadyComp(Unit, k)
    case Submit(on, fn) => SubmitComp(on, fn, k)
    case Map(e1, fn) => Materialize(e1, MapCont(fn, k, e1))
    case Via(e1, on) => Materialize(e1, ViaCont(on, k))
    case Flatten(e1) => Materialize(e1, FlattenCont(k))
    case MapOk(e1, fn) => Materialize(e1, MapOkCont(fn, k, e1))
    case Both(a, b) => BothComp(a, b, k)
  }

  // ---- running -----------------------------------------------------------------------------------

  datatype Activity =
    | Start(comp: Comp)
    | Resume(k: Cont, v: Value, s: State)
      // tasks in the queue of the scheduler `on`
    | SubmitTask(on: Scheduler, fn: Fun, k: Cont)
    | MapTask(on: Scheduler, fn: Fun, v: Value, s: State, k: Cont, up: Expr)
    | MapOkTask(on: Scheduler, fn: Fun, v: Value, s: State, k: Cont, up: Expr)
      // BothContinuation::Check
    | Check(c: nat)

  /** BothContinuation; ea and eb are history. */
  datatype Cell = Cell(a: Option<Value>, b: Option<Value>, finished: nat, k: Cont, ea: Expr, eb: Expr)

  /** A function called by Map or MapOk, its argument, where it ran, and (history) its producer. */
  datatype Called = Called(fn: Fun, arg: Value, on: State, up: Expr)

  datatype Config = Config(acts: seq<Activity>, cells: seq<Cell>, done: seq<Out>, calls: seq<Called>)

  function Begin(e: Expr): Config
  {
    Config([Start(Materialize(e, Final))], [], [], [])
  }

  function Replace(cf: Config, i: nat, acts: seq<Activity>): Config
    requires i < |cf.acts|
  {
    cf.(acts := cf.acts[..i] + acts + cf.acts[i + 1..])
  }

  /** Dereferences and accesses to optional and result values succeed. */
  predicate Able(cf: Config, act: Activity)
  {
    match act
    case Resume(k, v, s) =>
      (match k
       case FlattenCont(_) => v.Fut?
       case Binder(c, _) => c < |cf.cells|
       case MapOkCont(_, _, _) => v.Ok? || v.Err?
       case _ => true)
    case Check(c) => c < |cf.cells| && (cf.cells[c].finished == 1 ==> cf.cells[c].a.Some? && cf.cells[c].b.Some?)
    case _ => true
  }

  function Run(phi: Phi, cf: Config, i: nat): Config
    requires i < |cf.acts| && Able(cf, cf.acts[i])
  {
    match cf.acts[i]
    case Start(comp) => StartComp(cf, i, comp)
    case Resume(k, v, s) => ResumeCont(phi, cf, i, k, v, s)
    case SubmitTask(on, fn, k) => Replace(cf, i, [Resume(k, Call(phi, fn, Unit), Some(on))])
    case MapTask(on, fn, v, s, k, up) =>
      Replace(cf, i, [Resume(k, Call(phi, fn, v), s)]).(calls := cf.calls + [Called(fn, v, Some(on), up)])
    case MapOkTask(on, fn, v, s, k, up) =>
      Replace(cf, i, [Resume(k, OverOk(phi, fn, v), s)]).(calls := cf.calls + if v.Ok? then [Called(fn, v, Some(on), up)] else [])
    case Check(c) =>
      var cell := cf.cells[c];
      Replace(cf, i, if cell.finished == 1 then [Resume(cell.k, Pair(cell.a.value, cell.b.value), None)] else []).(
        cells := cf.cells[c := cell.(finished := cell.finished + 1)])
  }

  function StartComp(cf: Config, i: nat, comp: Comp): Config
    requires i < |cf.acts|
  {
    match comp
    case ReadyComp(v, k) => Replace(cf, i, [Resume(k, v, None)])
    case SubmitComp(on, fn, k) => Replace(cf, i, [SubmitTask(on, fn, k)])
    case BothComp(a, b, k) =>
      var c := |cf.cells|;
      Replace(cf, i, [Start(Materialize(a, Binder(c, true))), Start(Materialize(b, Binder(c, false)))]).(
        cells := cf.cells + [Cell(None, None, 0, k, a, b)])
  }

  function ResumeCont(phi: Phi, cf: Config, i: nat, k: Cont, v: Value, s: State): Config
    requires i < |cf.acts| && Able(cf, Resume(k, v, s))
  {
    match k
    case Final => Replace(cf, i, []).(done := cf.done + [Out(v, s)])
    case MapCont(fn, k1, up) =>
      if s.None? then Replace(cf, i, [Resume(k1, Call(phi, fn, v), s)]).(calls := cf.calls + [Called(fn, v, None, up)])
      else Replace(cf, i, [MapTask(s.value, fn, v, s, k1, up)])
    case MapOkCont(fn, k1, up) =>
      if s.None? then Replace(cf, i, [Resume(k1, OverOk(phi, fn, v), s)]).(calls := cf.calls + if v.Ok? then [Called(fn, v, None, up)] else [])
      else Replace(cf, i, [MapOkTask(s.value, fn, v, s, k1, up)])
    case ViaCont(on, k1) => Replace(cf, i, [Resume(k1, v, Some(on))])
    case FlattenCont(k1) => Replace(cf, i, [Start(Materialize(v.f, InnerCont(k1, s)))])
    case InnerCont(k1, s1) => Replace(cf, i, [Resume(k1, v, s1)])
    case Binder(c, first) =>
      var cell := cf.cells[c];
      Replace(cf, i, [Check(c)]).(cells := cf.cells[c := if first then cell.(a := Some(v)) else cell.(b := Some(v))])
  }

  ghost predicate Step(phi: Phi, cf: Config, cf': Config)
  {
    exists i :: 0 <= i < |cf.acts| && Able(cf, cf.acts[i]) && cf' == Run(phi, cf, i)
  }

  ghost predicate IsRun(phi: Phi, e: Expr, run: seq<Config>)
  {
    && |run| > 0 && run[0] == Begin(e)
    && forall i :: 0 < i < |run| ==> Step(phi, run[i - 1], run[i])
  }
}

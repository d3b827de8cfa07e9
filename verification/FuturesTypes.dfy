/**
Which expressions have a value.  The type of a future in the source spells out how it is built; a
function returns a type that is complete before the function is.  Under that discipline every
expression has a value, so that every run of it delivers.
*/
module FuturesTypes {
  import opened Futures
  import opened FuturesProof
  import opened FuturesRuns

  datatype Type = TUnit | TNum | TErr | TPair(a: Type, b: Type) | TResult(t: Type) | TFuture(k: Kind)

  /** The type of a future: the combinators and functions it is made of. */
  datatype Kind =
    | ReadyKind(t: Type)
    | JustKind
    | SubmitKind(fn: Fun)
    | MapKind(k: Kind, fn: Fun)
    | ViaKind(k: Kind)
    | FlattenKind(k: Kind, t: Type)
    | MapOkKind(k: Kind, fn: Fun)
    | BothKind(a: Kind, b: Kind)

  datatype Arrow = Arrow(dom: Type, cod: Type)

  /** The types of the user functions. */
  type Signature = Name -> Arrow

  // ---- types of values and expressions --------------------------------------------------------

  function Dom(sig: Signature, fn: Fun): Type
  {
    match fn
    case User(f) => sig(f).dom
    case OnOk(f) => TResult(sig(f).dom)
    case OnErr(f) => ErrType(sig(f).cod)
  }

  function Cod(sig: Signature, fn: Fun): Type
  {
    sig(fn.f).cod
  }

  /** OrElse is given a result of the type that its function's future has. */
  function ErrType(cod: Type): Type
  {
    if cod.TFuture? && cod.k.ReadyKind? then cod.k.t else TUnit
  }

  /** Both branches of the lambdas in AndThen and OrElse return a ready result of one type. */
  predicate FunOk(sig: Signature, fn: Fun)
  {
    match fn
    case User(_) => true
    case OnOk(f) => sig(f).cod == TFuture(ReadyKind(TResult(sig(f).dom)))
    case OnErr(f) => sig(f).dom == TErr && sig(f).cod.TFuture? && sig(f).cod.k.ReadyKind? && sig(f).cod.k.t.TResult?
  }

  function ValueType(sig: Signature, k: Kind): Type
  {
    match k
    case ReadyKind(t) => t
    case JustKind => TUnit
    case SubmitKind(fn) => Cod(sig, fn)
    case MapKind(_, fn) => Cod(sig, fn)
    case ViaKind(k1) => ValueType(sig, k1)
    case FlattenKind(_, t) => t
    case MapOkKind(_, fn) => TResult(Cod(sig, fn))
    case BothKind(a, b) => TPair(ValueType(sig, a), ValueType(sig, b))
  }

  predicate HasType(sig: Signature, v: Value, t: Type)
    decreases v
  {
    match v
    case Unit => t == TUnit
    case Num(_) => t == TNum || t == TErr
    case Pair(a, b) => t.TPair? && HasType(sig, a, t.a) && HasType(sig, b, t.b)
    case Ok(x) => t.TResult? && HasType(sig, x, t.t)
    case Err(x) => t.TResult? && HasType(sig, x, TErr)
    case Fut(e) => t.TFuture? && HasKind(sig, e, t.k)
  }

  predicate HasKind(sig: Signature, e: Expr, k: Kind)
    decreases e
  {
    match e
    case Ready(v) => k.ReadyKind? && HasType(sig, v, k.t)
    case Just => k == JustKind
    case Submit(_, fn) => k == SubmitKind(fn) && FunOk(sig, fn) && Dom(sig, fn) == TUnit
    case Map(e1, fn) => k.MapKind? && k.fn == fn && HasKind(sig, e1, k.k) && FunOk(sig, fn) && Dom(sig, fn) == ValueType(sig, k.k)
    case Via(e1, _) => k.ViaKind? && HasKind(sig, e1, k.k)
    case Flatten(e1) =>
      && k.FlattenKind? && HasKind(sig, e1, k.k)
      && var t := ValueType(sig, k.k);
         t.TFuture? && ValueType(sig, t.k) == k.t
    case MapOk(e1, fn) =>
      k.MapOkKind? && k.fn == fn && HasKind(sig, e1, k.k) && FunOk(sig, fn) && ValueType(sig, k.k) == TResult(Dom(sig, fn))
    case Both(a, b) => k.BothKind? && HasKind(sig, a, k.a) && HasKind(sig, b, k.b)
  }

  /** Functions return what their types say. */
  ghost predicate Respects(phi: Phi, sig: Signature)
  {
    forall f, v :: HasType(sig, v, sig(f).dom) ==> HasType(sig, phi(f, v), sig(f).cod)
  }

  // ---- no function returns a future made with itself -----------------------------------------------

  function Max(a: nat, b: nat): nat
  {
    if a < b then b else a
  }

  /** All functions that a type mentions are below this number. */
  function TopType(t: Type): nat
  {
    match t
    case TPair(a, b) => Max(TopType(a), TopType(b))
    case TResult(t1) => TopType(t1)
    case TFuture(k) => TopKind(k)
    case _ => 0
  }

  function TopKind(k: Kind): nat
  {
    match k
    case ReadyKind(t) => TopType(t)
    case JustKind => 0
    case SubmitKind(fn) => fn.f + 1
    case MapKind(k1, fn) => Max(TopKind(k1), fn.f + 1)
    case ViaKind(k1) => TopKind(k1)
    case FlattenKind(k1, t) => Max(TopKind(k1), TopType(t))
    case MapOkKind(k1, fn) => Max(TopKind(k1), fn.f + 1)
    case BothKind(a, b) => Max(TopKind(a), TopKind(b))
  }

  /** The type of a function's result is complete before the function: it mentions earlier functions only. */
  ghost predicate Ranked(sig: Signature)
  {
    forall f :: TopType(sig(f).cod) <= f
  }

  function SizeType(t: Type): nat
  {
    match t
    case TPair(a, b) => 1 + SizeType(a) + SizeType(b)
    case TResult(t1) => 1 + SizeType(t1)
    case TFuture(k) => 1 + SizeKind(k)
    case _ => 1
  }

  function SizeKind(k: Kind): nat
  {
    match k
    case ReadyKind(t) => 1 + SizeType(t)
    case JustKind => 1
    case SubmitKind(_) => 1
    case MapKind(k1, _) => 1 + SizeKind(k1)
    case ViaKind(k1) => 1 + SizeKind(k1)
    case FlattenKind(k1, t) => 1 + SizeKind(k1) + SizeType(t)
    case MapOkKind(k1, _) => 1 + SizeKind(k1)
    case BothKind(a, b) => 1 + SizeKind(a) + SizeKind(b)
  }

  /** A type that comes out of a future mentions earlier functions only, or is part of the future's type. */
  predicate Below(t: Type, k: Kind)
  {
    TopType(t) < TopKind(k) || (TopType(t) <= TopKind(k) && SizeType(t) <= SizeKind(k))
  }

  lemma {:induction false} ValueBelow(sig: Signature, k: Kind)
    requires Ranked(sig)
    ensures TopType(ValueType(sig, k)) <= TopKind(k)
    ensures ValueType(sig, k).TFuture? ==> Below(ValueType(sig, k), k)
  {
    match k
    case ReadyKind(_) =>
    case JustKind =>
    case SubmitKind(fn) => assert TopType(sig(fn.f).cod) <= fn.f;
    case MapKind(_, fn) => assert TopType(sig(fn.f).cod) <= fn.f;
    case ViaKind(k1) => ValueBelow(sig, k1);
    case FlattenKind(_, _) =>
    case MapOkKind(_, fn) => assert TopType(sig(fn.f).cod) <= fn.f;
    case BothKind(a, b) =>
      ValueBelow(sig, a);
      ValueBelow(sig, b);
  }

  // ---- every typed expression has a value --------------------------------------------------------------

  /** A call of a function, or of one of the lambdas around it, has the type it promises. */
  lemma CallTyped(phi: Phi, sig: Signature, fn: Fun, v: Value)
    requires Respects(phi, sig) && FunOk(sig, fn) && HasType(sig, v, Dom(sig, fn))
    ensures HasType(sig, Call(phi, fn, v), Cod(sig, fn))
  {
    if fn.OnErr? && v.Err? { assert HasType(sig, v.e, TErr); }
  }

  lemma {:induction false} EvalUp(phi: Phi, n: nat, m: nat, e: Expr)
    requires Eval(phi, n, e).Some? && n <= m
    ensures Eval(phi, m, e) == Eval(phi, n, e)
    decreases m - n
  {
    if n < m {
      EvalMore(phi, n, e);
      EvalUp(phi, n + 1, m, e);
    }
  }

  predicate Good(phi: Phi, sig: Signature, n: nat, e: Expr, t: Type)
  {
    Has(phi, n, e) && HasType(sig, Eval(phi, n, e).value.v, t)
  }

  lemma GoodUp(phi: Phi, sig: Signature, n: nat, m: nat, e: Expr, t: Type)
    requires Good(phi, sig, n, e, t) && n <= m
    ensures Good(phi, sig, m, e, t)
  {
    EvalUp(phi, n, m, e);
  }

  lemma {:induction false} TypedHasValue(phi: Phi, sig: Signature, e: Expr, k: Kind) returns (n: nat)
    requires Respects(phi, sig) && Ranked(sig) && HasKind(sig, e, k)
    ensures Good(phi, sig, n, e, ValueType(sig, k))
    decreases TopKind(k), SizeKind(k)
  {
    match e
    case Ready(_) => n := 0;
    case Just => n := 0;
    case Submit(_, fn) =>
      n := 0;
      CallTyped(phi, sig, fn, Unit);
    case Map(e1, fn) =>
      n := TypedHasValue(phi, sig, e1, k.k);
      CallTyped(phi, sig, fn, Eval(phi, n, e1).value.v);
    case Via(e1, _) => n := TypedHasValue(phi, sig, e1, k.k);
    case MapOk(e1, fn) =>
      n := TypedHasValue(phi, sig, e1, k.k);
      var v := Eval(phi, n, e1).value.v;
      if v.Ok? { CallTyped(phi, sig, fn, v.v); }
    case Flatten(e1) =>
      FlattenSmaller(sig, k);
      n := FlattenHasValue(phi, sig, e1, k.k, ValueType(sig, k.k).k, k);
    case Both(a, b) =>
      var x := TypedHasValue(phi, sig, a, k.a);
      var y := TypedHasValue(phi, sig, b, k.b);
      n := Max(x, y);
      GoodUp(phi, sig, x, n, a, ValueType(sig, k.a));
      GoodUp(phi, sig, y, n, b, ValueType(sig, k.b));
  }

  /** The future inside is smaller, or made of earlier functions. */
  /** The future that comes out of `e` is of an earlier kind, like `e` itself. */
  lemma {:induction false} FlattenHasValue(phi: Phi, sig: Signature, e: Expr, k1: Kind, k2: Kind, k: Kind) returns (n: nat)
    requires Respects(phi, sig) && Ranked(sig) && HasKind(sig, e, k1) && ValueType(sig, k1) == TFuture(k2) && Smaller(k1, k) && Smaller(k2, k)
    ensures Good(phi, sig, n, Flatten(e), ValueType(sig, k2))
    decreases TopKind(k), SizeKind(k), 0
  {
    var x := TypedHasValue(phi, sig, e, k1);
    var i := Eval(phi, x, e).value.v.f;
    var y := TypedHasValue(phi, sig, i, k2);
    n := Max(x, y + 1);
    EvalUp(phi, x, n, e);
    GoodUp(phi, sig, y, n - 1, i, ValueType(sig, k2));
    FlattenGood(phi, sig, n, e, i, ValueType(sig, k2));
  }

  predicate Smaller(k1: Kind, k: Kind)
  {
    TopKind(k1) < TopKind(k) || (TopKind(k1) == TopKind(k) && SizeKind(k1) < SizeKind(k))
  }

  lemma FlattenSmaller(sig: Signature, k: Kind)
    requires Ranked(sig) && k.FlattenKind? && ValueType(sig, k.k).TFuture?
    ensures Smaller(k.k, k) && Smaller(ValueType(sig, k.k).k, k)
  {
    ValueBelow(sig, k.k);
  }

  lemma FlattenGood(phi: Phi, sig: Signature, n: nat, e: Expr, i: Expr, t: Type)
    requires n > 0 && Has(phi, n, e) && Eval(phi, n, e).value.v == Fut(i) && Good(phi, sig, n - 1, i, t)
    ensures Good(phi, sig, n, Flatten(e), t)
  {}

  /** Every run of a typed expression ends and resumes the final continuation exactly once, with a value of its type. */
  lemma TypedRunsDeliver(phi: Phi, sig: Signature, e: Expr, k: Kind, run: seq<Config>) returns (o: Out, bound: nat)
    requires Respects(phi, sig) && Ranked(sig) && HasKind(sig, e, k) && IsRun(phi, e, run)
    ensures HasType(sig, o.v, ValueType(sig, k)) && |run| <= bound
    ensures exists n: nat :: Eval(phi, n, e) == Some(o)
    ensures var cf := run[|run| - 1];
            && (forall i :: 0 <= i < |cf.acts| ==> Able(cf, cf.acts[i]))
            && (cf.acts == [] ==> cf.done == [o])
            && (cf.done == [] || cf.done == [o])
  {
    var n := TypedHasValue(phi, sig, e, k);
    o, bound := Eval(phi, n, e).value, Cost(phi, n, e) + 2;
    RunsDeliver(phi, n, e, run);
  }

  /** The order of functions is needed: one that returns a future made with itself has no value at any depth. */
  lemma {:induction false} SelfReturningDiverges(phi: Phi, f: Name, n: nat)
    requires forall v :: phi(f, v) == Fut(FlatMap(Just, User(f)))
    ensures Eval(phi, n, FlatMap(Just, User(f))) == None
  {
    assert Eval(phi, n, Map(Just, User(f))) == Some(Out(phi(f, Unit), None));
    if n > 0 { SelfReturningDiverges(phi, f, n - 1); }
  }
}

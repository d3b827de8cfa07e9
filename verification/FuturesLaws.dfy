/**
What the combinators mean to their user, in terms of runs only: what a run of the whole delivers and
which functions it calls, given runs of the parts.  Runs are those of any order of tasks.
*/
module FuturesLaws {
  import opened Futures
  import opened FuturesProof
  import opened FuturesRuns
  import opened FuturesCalls
  import opened FuturesTypes

  /** A run of e that has ended, with what it delivered and called. */
  ghost predicate Ends(phi: Phi, e: Expr, run: seq<Config>, o: Out, calls: multiset<Called>)
  {
    IsRun(phi, e, run) && run[|run| - 1].acts == [] && run[|run| - 1].done == [o] && multiset(run[|run| - 1].calls) == calls
  }

  /** An expression that has a value, as all typed ones do. */
  ghost predicate Sound(phi: Phi, e: Expr)
  {
    exists n: nat :: Has(phi, n, e)
  }

  // ---- every run can be completed -----------------------------------------------------------

  lemma {:induction false} Completes(phi: Phi, n: nat, e: Expr, run: seq<Config>) returns (all: seq<Config>, o: Out)
    requires Has(phi, n, e) && IsRun(phi, e, run)
    ensures run <= all && Ends(phi, e, all, o, multiset(all[|all| - 1].calls)) && Eval(phi, n, e) == Some(o)
    decreases Cost(phi, n, e) + 2 - |run|
  {
    var last := run[|run| - 1];
    RunsDeliver(phi, n, e, run);
    if last.acts == [] {
      all, o := run, last.done[0];
    } else {
      assert Able(last, last.acts[0]);
      var more := Longer(phi, e, run);
      RunsDeliver(phi, n, e, more);
      all, o := Completes(phi, n, e, more);
    }
  }

  lemma Longer(phi: Phi, e: Expr, run: seq<Config>) returns (more: seq<Config>)
    requires IsRun(phi, e, run) && run[|run| - 1].acts != [] && Able(run[|run| - 1], run[|run| - 1].acts[0])
    ensures IsRun(phi, e, more) && run <= more && |more| == |run| + 1
  {
    var last := run[|run| - 1];
    more := run + [Run(phi, last, 0)];
    assert Step(phi, last, more[|run|]);
    forall i | 0 < i < |more| ensures Step(phi, more[i - 1], more[i]) { if i < |run| { assert Step(phi, run[i - 1], run[i]); } }
  }

  /** An expression with a value has a run that ends. */
  lemma SoundEnds(phi: Phi, e: Expr) returns (run: seq<Config>, o: Out, calls: multiset<Called>)
    requires Sound(phi, e)
    ensures Ends(phi, e, run, o, calls)
  {
    var n: nat :| Has(phi, n, e);
    run, o := Completes(phi, n, e, [Begin(e)]);
    calls := multiset(run[|run| - 1].calls);
  }

  lemma TypedIsSound(phi: Phi, sig: Signature, e: Expr, k: Kind)
    requires Respects(phi, sig) && Ranked(sig) && HasKind(sig, e, k)
    ensures Sound(phi, e)
  {
    var n := TypedHasValue(phi, sig, e, k);
  }

  /** What a run that has ended says about the meaning of the expression. */
  lemma Outcome(phi: Phi, n: nat, e: Expr, run: seq<Config>, o: Out, calls: multiset<Called>)
    requires Has(phi, n, e) && Ends(phi, e, run, o, calls)
    ensures Eval(phi, n, e) == Some(o) && forall c :: calls[c] == Asks(phi, n, e, c)
  {
    RunsDeliver(phi, n, e, run);
    forall c ensures calls[c] == Asks(phi, n, e, c) { CallsMade(phi, n, e, run, c); }
  }

  // ---- the laws ------------------------------------------------------------------------------------

  /** All orders of tasks deliver the same and call the same. */
  lemma Confluent(phi: Phi, e: Expr, run: seq<Config>, o: Out, calls: multiset<Called>, run': seq<Config>, o': Out, calls': multiset<Called>)
    requires Sound(phi, e) && Ends(phi, e, run, o, calls) && Ends(phi, e, run', o', calls')
    ensures o' == o && calls' == calls
  {
    var n: nat :| Has(phi, n, e);
    Outcome(phi, n, e, run, o, calls);
    Outcome(phi, n, e, run', o', calls');
    forall c ensures calls'[c] == calls[c] {}
  }

  lemma SourceLaws(phi: Phi, e: Expr, run: seq<Config>, o: Out, calls: multiset<Called>)
    requires (e.Ready? || e.Just? || e.Submit?) && Ends(phi, e, run, o, calls)
    ensures calls == multiset{}
    ensures match e
            case Ready(v) => o == Out(v, None)
            case Just => o == Out(Unit, None)
            case Submit(on, fn) => o.s == Some(on) && (fn.User? ==> o.v == phi(fn.f, Unit))
            case _ => true
  {
    Outcome(phi, 0, e, run, o, calls);
    forall c ensures calls[c] == 0 { assert Asks(phi, 0, e, c) == 0; }
  }

  /** Map calls the function once, with the value and on the scheduler of its input. */
  lemma MapLaw(phi: Phi, e: Expr, f: Name, run: seq<Config>, o: Out, calls: multiset<Called>, run1: seq<Config>, o1: Out, calls1: multiset<Called>)
    requires Sound(phi, Map(e, User(f)))
    requires Ends(phi, Map(e, User(f)), run, o, calls) && Ends(phi, e, run1, o1, calls1)
    ensures o == Out(phi(f, o1.v), o1.s) && calls == calls1 + multiset{Called(User(f), o1.v, o1.s, e)}
  {
    var n: nat :| Has(phi, n, Map(e, User(f)));
    Outcome(phi, n, Map(e, User(f)), run, o, calls);
    Outcome(phi, n, e, run1, o1, calls1);
    forall c ensures calls[c] == (calls1 + multiset{Called(User(f), o1.v, o1.s, e)})[c] {
      assert calls[c] == Asks(phi, n, Map(e, User(f)), c) && calls1[c] == Asks(phi, n, e, c);
    }
  }

  /** Via changes nothing but the scheduler. */
  lemma ViaLaw(phi: Phi, e: Expr, on: Scheduler, run: seq<Config>, o: Out, calls: multiset<Called>, run1: seq<Config>, o1: Out, calls1: multiset<Called>)
    requires Sound(phi, Via(e, on)) && Ends(phi, Via(e, on), run, o, calls) && Ends(phi, e, run1, o1, calls1)
    ensures o == Out(o1.v, Some(on)) && calls == calls1
  {
    var n: nat :| Has(phi, n, Via(e, on));
    Outcome(phi, n, Via(e, on), run, o, calls);
    Outcome(phi, n, e, run1, o1, calls1);
    forall c ensures calls[c] == calls1[c] { assert calls[c] == Asks(phi, n, Via(e, on), c) && calls1[c] == Asks(phi, n, e, c); }
  }

  /** Flatten delivers the value of the inner future on the scheduler of the outer one. */
  lemma FlattenLaw(phi: Phi, e: Expr, run: seq<Config>, o: Out, calls: multiset<Called>, run1: seq<Config>, o1: Out, calls1: multiset<Called>,
                   run2: seq<Config>, o2: Out, calls2: multiset<Called>)
    requires Sound(phi, Flatten(e)) && Ends(phi, Flatten(e), run, o, calls) && Ends(phi, e, run1, o1, calls1)
    requires o1.v.Fut? && Ends(phi, o1.v.f, run2, o2, calls2)
    ensures o == Out(o2.v, o1.s) && calls == calls1 + calls2
  {
    var n: nat :| Has(phi, n, Flatten(e));
    FlattenParts(phi, n, e);
    Outcome(phi, n, Flatten(e), run, o, calls);
    Outcome(phi, n, e, run1, o1, calls1);
    Outcome(phi, n - 1, o1.v.f, run2, o2, calls2);
    forall c ensures calls[c] == (calls1 + calls2)[c] {
      assert calls[c] == Asks(phi, n, Flatten(e), c) && calls1[c] == Asks(phi, n, e, c) && calls2[c] == Asks(phi, n - 1, o1.v.f, c);
    }
  }

  /** The input of Flatten delivers a future that has a value. */
  lemma FlattenInput(phi: Phi, e: Expr, run1: seq<Config>, o1: Out, calls1: multiset<Called>)
    requires Sound(phi, Flatten(e)) && Ends(phi, e, run1, o1, calls1)
    ensures o1.v.Fut? && Sound(phi, o1.v.f)
  {
    var n: nat :| Has(phi, n, Flatten(e));
    FlattenParts(phi, n, e);
    Outcome(phi, n, e, run1, o1, calls1);
  }

  /** MapOk calls the function on success only and passes errors through. */
  lemma MapOkLaw(phi: Phi, e: Expr, f: Name, run: seq<Config>, o: Out, calls: multiset<Called>, run1: seq<Config>, o1: Out, calls1: multiset<Called>)
    requires Sound(phi, MapOk(e, User(f)))
    requires Ends(phi, MapOk(e, User(f)), run, o, calls) && Ends(phi, e, run1, o1, calls1)
    ensures o1.v.Ok? || o1.v.Err?
    ensures o1.v.Ok? ==> o == Out(Ok(phi(f, o1.v.v)), o1.s) && calls == calls1 + multiset{Called(User(f), o1.v, o1.s, e)}
    ensures o1.v.Err? ==> o == o1 && calls == calls1
  {
    var n: nat :| Has(phi, n, MapOk(e, User(f)));
    Outcome(phi, n, MapOk(e, User(f)), run, o, calls);
    Outcome(phi, n, e, run1, o1, calls1);
    var more := if o1.v.Ok? then multiset{Called(User(f), o1.v, o1.s, e)} else multiset{};
    forall c ensures calls[c] == (calls1 + more)[c] {
      assert calls[c] == Asks(phi, n, MapOk(e, User(f)), c) && calls1[c] == Asks(phi, n, e, c);
    }
    assert calls == calls1 + more;
  }

  /** Both delivers the two values in order, and no scheduler. */
  lemma BothLaw(phi: Phi, a: Expr, b: Expr, run: seq<Config>, o: Out, calls: multiset<Called>, run1: seq<Config>, o1: Out, calls1: multiset<Called>,
                run2: seq<Config>, o2: Out, calls2: multiset<Called>)
    requires Sound(phi, Both(a, b)) && Ends(phi, Both(a, b), run, o, calls)
    requires Ends(phi, a, run1, o1, calls1) && Ends(phi, b, run2, o2, calls2)
    ensures o == Out(Pair(o1.v, o2.v), None) && calls == calls1 + calls2
  {
    var n: nat :| Has(phi, n, Both(a, b));
    Outcome(phi, n, Both(a, b), run, o, calls);
    Outcome(phi, n, a, run1, o1, calls1);
    Outcome(phi, n, b, run2, o2, calls2);
    forall c ensures calls[c] == (calls1 + calls2)[c] {
      assert calls[c] == Asks(phi, n, Both(a, b), c) && calls1[c] == Asks(phi, n, a, c) && calls2[c] == Asks(phi, n, b, c);
    }
  }

  /** AndThen continues with the user's future on success and passes an error through; OrElse the other way round. */
  lemma ResultLaws(phi: Phi, e: Expr, f: Name, andThen: bool, run: seq<Config>, o: Out, calls: multiset<Called>,
                   run1: seq<Config>, o1: Out, calls1: multiset<Called>)
    requires var w := if andThen then AndThen(e, f) else OrElse(e, f); Sound(phi, w) && Ends(phi, w, run, o, calls)
    requires Ends(phi, e, run1, o1, calls1) && (o1.v.Ok? || o1.v.Err?)
    ensures o.s == o1.s
    ensures o1.v.Ok? != andThen ==> o == o1
    ensures o1.v.Ok? == andThen ==>
              var r := phi(f, if andThen then o1.v.v else o1.v.e);
              r.Fut? && Sound(phi, r.f) && forall run2, o2, calls2 :: Ends(phi, r.f, run2, o2, calls2) ==> o.v == o2.v
  {
    var w := if andThen then AndThen(e, f) else OrElse(e, f);
    var fn := if andThen then OnOk(f) else OnErr(f);
    var n: nat :| Has(phi, n, w);
    Outcome(phi, n, w, run, o, calls);
    FlattenParts(phi, n, Map(e, fn));
    Outcome(phi, n, e, run1, o1, calls1);
    assert Eval(phi, n, Map(e, fn)) == Some(Out(Call(phi, fn, o1.v), o1.s));
    var r := Call(phi, fn, o1.v);
    if o1.v.Ok? != andThen {
      assert r == Fut(Ready(o1.v));
    } else {
      forall run2, o2, calls2 | Ends(phi, r.f, run2, o2, calls2) ensures o.v == o2.v { Outcome(phi, n - 1, r.f, run2, o2, calls2); }
    }
  }
}

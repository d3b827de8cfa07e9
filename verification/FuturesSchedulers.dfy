/**
Where continuations run.  The scheduler that a consumer of a future meets is determined by the
shape of the expression alone, whatever the values and the order of tasks.
*/
module FuturesSchedulers {
  import opened Futures

  /** Via and Submit set it, Map, MapOk and Flatten pass on that of their input, the others start without one. */
  function Determined(e: Expr): State
  {
    match e
    case Via(_, on) => Some(on)
    case Submit(on, _) => Some(on)
    case Map(e1, _) => Determined(e1)
    case MapOk(e1, _) => Determined(e1)
    case Flatten(e1) => Determined(e1)
    case Ready(_) => None
    case Just => None
    case Both(_, _) => None
  }

  /** Resuming k on s leads every Map in the chain to the scheduler its input determines, and the end to `goal`. */
  predicate Meets(goal: State, k: Cont, s: State)
  {
    match k
    case Final => s == goal
    case MapCont(_, k1, up) => s == Determined(up) && Meets(goal, k1, s)
    case MapOkCont(_, k1, up) => s == Determined(up) && Meets(goal, k1, s)
    case ViaCont(on, k1) => Meets(goal, k1, Some(on))
    case FlattenCont(k1) => Meets(goal, k1, s)
    case InnerCont(k1, s1) => Meets(goal, k1, s1)
    case Binder(_, _) => true
  }

  predicate CompMeets(goal: State, comp: Comp)
  {
    match comp
    case ReadyComp(_, k) => Meets(goal, k, None)
    case SubmitComp(on, _, k) => Meets(goal, k, Some(on))
    case BothComp(_, _, k) => Meets(goal, k, None)
  }

  predicate ActMeets(goal: State, act: Activity)
  {
    match act
    case Start(comp) => CompMeets(goal, comp)
    case Resume(k, _, s) => Meets(goal, k, s)
    case SubmitTask(on, _, k) => Meets(goal, k, Some(on))
    case MapTask(on, _, _, s, k, up) => s == Some(on) == Determined(up) && Meets(goal, k, s)
    case MapOkTask(on, _, _, s, k, up) => s == Some(on) == Determined(up) && Meets(goal, k, s)
    case Check(_) => true
  }

  predicate AllMeet(goal: State, cf: Config)
  {
    && (forall i :: 0 <= i < |cf.acts| ==> ActMeets(goal, cf.acts[i]))
    && (forall c :: 0 <= c < |cf.cells| ==> Meets(goal, cf.cells[c].k, None))
    && (forall i :: 0 <= i < |cf.done| ==> cf.done[i].s == goal)
    && (forall j :: 0 <= j < |cf.calls| ==> cf.calls[j].on == Determined(cf.calls[j].up))
  }

  lemma {:induction false} MaterializeMeets(goal: State, e: Expr, k: Cont)
    requires Meets(goal, k, Determined(e))
    ensures CompMeets(goal, Materialize(e, k))
    decreases e
  {
    match e
    case Map(e1, fn) => MaterializeMeets(goal, e1, MapCont(fn, k, e1));
    case MapOk(e1, fn) => MaterializeMeets(goal, e1, MapOkCont(fn, k, e1));
    case Via(e1, on) => MaterializeMeets(goal, e1, ViaCont(on, k));
    case Flatten(e1) => MaterializeMeets(goal, e1, FlattenCont(k));
    case _ =>
  }

  /** The activities that replace one, if they meet what is determined. */
  lemma ReplaceMeets(goal: State, cf: Config, i: nat, acts: seq<Activity>, cf': Config)
    requires AllMeet(goal, cf) && i < |cf.acts| && cf' == Replace(cf, i, acts).(cells := cf'.cells, done := cf'.done, calls := cf'.calls)
    requires forall j :: 0 <= j < |acts| ==> ActMeets(goal, acts[j])
    ensures forall j :: 0 <= j < |cf'.acts| ==> ActMeets(goal, cf'.acts[j])
  {}

  lemma StartMeets(phi: Phi, goal: State, cf: Config, i: nat)
    requires AllMeet(goal, cf) && i < |cf.acts| && cf.acts[i].Start?
    ensures AllMeet(goal, StartComp(cf, i, cf.acts[i].comp))
  {
    var cf' := StartComp(cf, i, cf.acts[i].comp);
    assert ActMeets(goal, cf.acts[i]);
    match cf.acts[i].comp
    case ReadyComp(v, k) => ReplaceMeets(goal, cf, i, [Resume(k, v, None)], cf');
    case SubmitComp(on, fn, k) => ReplaceMeets(goal, cf, i, [SubmitTask(on, fn, k)], cf');
    case BothComp(a, b, k) =>
      var c := |cf.cells|;
      MaterializeMeets(goal, a, Binder(c, true));
      MaterializeMeets(goal, b, Binder(c, false));
      ReplaceMeets(goal, cf, i, [Start(Materialize(a, Binder(c, true))), Start(Materialize(b, Binder(c, false)))], cf');
  }

  lemma ResumeMeets(phi: Phi, goal: State, cf: Config, i: nat)
    requires AllMeet(goal, cf) && i < |cf.acts| && cf.acts[i].Resume? && Able(cf, cf.acts[i])
    ensures AllMeet(goal, Run(phi, cf, i))
  {
    var cf' := Run(phi, cf, i);
    var Resume(k, v, s) := cf.acts[i];
    assert ActMeets(goal, cf.acts[i]);
    match k
    case Final => ReplaceMeets(goal, cf, i, [], cf');
    case MapCont(fn, k1, up) =>
      ReplaceMeets(goal, cf, i, [if s.None? then Resume(k1, Call(phi, fn, v), s) else MapTask(s.value, fn, v, s, k1, up)], cf');
    case MapOkCont(fn, k1, up) =>
      ReplaceMeets(goal, cf, i, [if s.None? then Resume(k1, OverOk(phi, fn, v), s) else MapOkTask(s.value, fn, v, s, k1, up)], cf');
    case ViaCont(on, k1) => ReplaceMeets(goal, cf, i, [Resume(k1, v, Some(on))], cf');
    case FlattenCont(k1) =>
      MaterializeMeets(goal, v.f, InnerCont(k1, s));
      ReplaceMeets(goal, cf, i, [Start(Materialize(v.f, InnerCont(k1, s)))], cf');
    case InnerCont(k1, s1) => ReplaceMeets(goal, cf, i, [Resume(k1, v, s1)], cf');
    case Binder(c, _) => ReplaceMeets(goal, cf, i, [Check(c)], cf');
  }

  lemma TaskMeets(phi: Phi, goal: State, cf: Config, i: nat)
    requires AllMeet(goal, cf) && i < |cf.acts| && !cf.acts[i].Start? && !cf.acts[i].Resume? && Able(cf, cf.acts[i])
    ensures AllMeet(goal, Run(phi, cf, i))
  {
    var cf' := Run(phi, cf, i);
    assert ActMeets(goal, cf.acts[i]);
    match cf.acts[i]
    case SubmitTask(on, fn, k) => ReplaceMeets(goal, cf, i, [Resume(k, Call(phi, fn, Unit), Some(on))], cf');
    case MapTask(on, fn, v, s, k, up) => ReplaceMeets(goal, cf, i, [Resume(k, Call(phi, fn, v), s)], cf');
    case MapOkTask(on, fn, v, s, k, up) => ReplaceMeets(goal, cf, i, [Resume(k, OverOk(phi, fn, v), s)], cf');
    case Check(c) =>
      var cell := cf.cells[c];
      ReplaceMeets(goal, cf, i, if cell.finished == 1 then [Resume(cell.k, Pair(cell.a.value, cell.b.value), None)] else [], cf');
  }

  lemma {:induction false} RunMeets(phi: Phi, e: Expr, run: seq<Config>, i: nat)
    requires IsRun(phi, e, run) && i < |run|
    ensures AllMeet(Determined(e), run[i])
  {
    if i == 0 {
      MaterializeMeets(Determined(e), e, Final);
    } else {
      RunMeets(phi, e, run, i - 1);
      assert Step(phi, run[i - 1], run[i]);
      var cf := run[i - 1];
      var j: nat :| 0 <= j < |cf.acts| && Able(cf, cf.acts[j]) && run[i] == Run(phi, cf, j);
      if cf.acts[j].Start? { StartMeets(phi, Determined(e), cf, j); }
      else if cf.acts[j].Resume? { ResumeMeets(phi, Determined(e), cf, j); }
      else { TaskMeets(phi, Determined(e), cf, j); }
    }
  }

  /** In every run each function runs where its input says, and the result is delivered where the expression says. */
  lemma RunsWhereDetermined(phi: Phi, e: Expr, run: seq<Config>, i: nat)
    requires IsRun(phi, e, run) && i < |run|
    ensures forall j :: 0 <= j < |run[i].calls| ==> run[i].calls[j].on == Determined(run[i].calls[j].up)
    ensures forall j :: 0 <= j < |run[i].done| ==> run[i].done[j].s == Determined(e)
  {
    RunMeets(phi, e, run, i);
  }

  /** A task in the queue of a scheduler is there because its input determines that scheduler. */
  lemma QueuedWhereDetermined(phi: Phi, e: Expr, run: seq<Config>, i: nat, j: nat)
    requires IsRun(phi, e, run) && i < |run| && j < |run[i].acts| && (run[i].acts[j].MapTask? || run[i].acts[j].MapOkTask?)
    ensures Determined(run[i].acts[j].up) == Some(run[i].acts[j].on)
  {
    RunMeets(phi, e, run, i);
    assert ActMeets(Determined(e), run[i].acts[j]);
  }
}

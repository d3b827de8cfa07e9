/**
The state shared by a promise and its future (src/exe/future/contract-state): each side
fills in its part, then announces it in one atomic word; whoever comes second runs the
callback and deletes the state.
*/
module Contract {

  type Value = int

  datatype Option<+X> = None | Some(value: X)

  /** Each side: fill, announce, and perhaps call and delete. */
  datatype Pc = Filling | Announcing | Calling | Deleting | Done

  /** `calls` is history: the values passed to the callback. */
  datatype State = State(
    word: bv2, value: Option<Value>, callback: bool, alive: bool,
    producer: Pc, consumer: Pc, v: Value, calls: seq<Value>)

  const EMPTY: bv2 := 0
  const PRODUCED: bv2 := 1
  const CONSUMED: bv2 := 2

  predicate Init(s: State)
  {
    s.word == EMPTY && s.value.None? && !s.callback && s.alive && s.producer == s.consumer == Filling && s.calls == []
  }

  /** callback_(std::move(value_.Access())). */
  predicate Called(s: State, s': State)
  {
    s.callback && s.value.Some? && s' == s.(calls := s.calls + [s.value.value], value := None, producer := s'.producer, consumer := s'.consumer)
  }

  predicate Produce(s: State, s': State)
  {
    match s.producer
    case Filling => s.alive && s' == s.(value := Some(s.v), producer := Announcing)
    case Announcing => s.alive && s' == s.(word := s.word | PRODUCED, producer := if s.word == CONSUMED then Calling else Done)
    case Calling => s.alive && Called(s, s') && s'.producer == Deleting && s'.consumer == s.consumer
    case Deleting => s.alive && s' == s.(alive := false, producer := Done)
    case Done => false
  }

  predicate Consume(s: State, s': State)
  {
    match s.consumer
    case Filling => s.alive && s' == s.(callback := true, consumer := Announcing)
    case Announcing => s.alive && s' == s.(word := s.word | CONSUMED, consumer := if s.word == PRODUCED then Calling else Done)
    case Calling => s.alive && Called(s, s') && s'.consumer == Deleting && s'.producer == s.producer
    case Deleting => s.alive && s' == s.(alive := false, consumer := Done)
    case Done => false
  }

  predicate Next(s: State, s': State)
  {
    Produce(s, s') || Consume(s, s')
  }

  ghost predicate IsRun(run: seq<State>)
  {
    |run| > 0 && Init(run[0]) && forall i :: 0 < i < |run| ==> Next(run[i - 1], run[i])
  }

  // ---- what every step keeps ------------------------------------------------------------------

  predicate Announced(p: Pc)
  {
    !p.Filling? && !p.Announcing?
  }

  predicate Second(p: Pc)
  {
    p.Calling? || p.Deleting?
  }

  predicate Inv(s: State)
  {
    && (s.word == EMPTY || s.word == PRODUCED || s.word == CONSUMED || s.word == 3)
    && (Announced(s.producer) <==> s.word == PRODUCED || s.word == 3)
    && (Announced(s.consumer) <==> s.word == CONSUMED || s.word == 3)
    && (s.callback <==> !s.consumer.Filling?)
    && !(Second(s.producer) && Second(s.consumer))
    && (Second(s.producer) || Second(s.consumer) ==> s.word == 3 && s.alive)
    && (s.word == 3 && !Second(s.producer) && !Second(s.consumer) ==> !s.alive && s.calls == [s.v])
    && (s.producer.Deleting? || s.consumer.Deleting? ==> s.calls == [s.v])
    && (s.producer.Calling? || s.consumer.Calling? || s.word != 3 ==>
          s.alive && s.calls == [] && s.value == (if s.producer.Filling? then None else Some(s.v)))
  }

  lemma BitOr()
    ensures EMPTY | PRODUCED == PRODUCED && CONSUMED | PRODUCED == 3 && EMPTY | CONSUMED == CONSUMED && PRODUCED | CONSUMED == 3
  {}

  lemma StepKeeps(s: State, s': State)
    requires Inv(s) && Next(s, s')
    ensures Inv(s') && s'.v == s.v
  {
    BitOr();
  }

  lemma {:induction false} RunKeeps(run: seq<State>, n: nat)
    requires IsRun(run) && n < |run|
    ensures Inv(run[n]) && run[n].v == run[0].v
  {
    if n > 0 {
      RunKeeps(run, n - 1);
      StepKeeps(run[n - 1], run[n]);
    }
  }

  /** The callback runs at most once, with the value of the promise; once both sides are done it has run and the state is gone. */
  lemma CalledOnce(run: seq<State>, n: nat)
    requires IsRun(run) && n < |run|
    ensures run[n].calls == [] || run[n].calls == [run[0].v]
    ensures run[n].producer.Done? && run[n].consumer.Done? ==> run[n].calls == [run[0].v] && !run[n].alive
  {
    RunKeeps(run, n);
  }

  /** Neither side touches the state after it is deleted: a side that is not done can always go on. */
  lemma NeverDangles(run: seq<State>, n: nat)
    requires IsRun(run) && n < |run|
    ensures !run[n].producer.Done? ==> exists s' :: Produce(run[n], s')
    ensures !run[n].consumer.Done? ==> exists s' :: Consume(run[n], s')
  {
    RunKeeps(run, n);
    var s := run[n];
    match s.producer {
      case Filling => assert Produce(s, s.(value := Some(s.v), producer := Announcing));
      case Announcing => assert Produce(s, s.(word := s.word | PRODUCED, producer := if s.word == CONSUMED then Calling else Done));
      case Calling => assert Produce(s, s.(calls := s.calls + [s.value.value], value := None, producer := Deleting));
      case Deleting => assert Produce(s, s.(alive := false, producer := Done));
      case Done =>
    }
    match s.consumer {
      case Filling => assert Consume(s, s.(callback := true, consumer := Announcing));
      case Announcing => assert Consume(s, s.(word := s.word | CONSUMED, consumer := if s.word == PRODUCED then Calling else Done));
      case Calling => assert Consume(s, s.(calls := s.calls + [s.value.value], value := None, consumer := Deleting));
      case Deleting => assert Consume(s, s.(alive := false, consumer := Done));
      case Done =>
    }
  }
}

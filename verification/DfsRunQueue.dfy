/**
The run queue of the DFS scheduler and its preemption rules (deps/twist: SortedList,
PickNext and Preempt).  Threads are known by their ids; the answers of Choose are passed
in, so that the contracts hold for every schedule.
*/
module DfsRunQueue {

  type Tid = nat

  const MAX_THREADS := 16

  datatype Option<+X> = None | Some(value: X)

  predicate Sorted(s: seq<Tid>)
  {
    forall i, j :: 0 <= i < j < |s| ==> s[i] <= s[j]
  }

  /** Where Push puts x: behind all ids that are not greater. */
  function Place(s: seq<Tid>, x: Tid): (k: nat)
    ensures k <= |s|
  {
    if s != [] && s[|s| - 1] > x then Place(s[..|s| - 1], x) else |s|
  }

  function Inserted(s: seq<Tid>, x: Tid): seq<Tid>
  {
    s[..Place(s, x)] + [x] + s[Place(s, x)..]
  }

  function Removed(s: seq<Tid>, i: nat): seq<Tid>
    requires i < |s|
  {
    s[..i] + s[i + 1..]
  }

  lemma {:induction false} PlaceSplits(s: seq<Tid>, x: Tid, i: nat)
    requires Sorted(s) && i < |s|
    ensures if i < Place(s, x) then s[i] <= x else s[i] > x
  {
    var n := |s| - 1;
    if s[n] > x {
      if i < n { PlaceSplits(s[..n], x, i); assert s[..n][i] == s[i]; }
    }
  }

  lemma {:induction false} PlaceIs(s: seq<Tid>, x: Tid, i: nat)
    requires i <= |s| && (forall j :: i <= j < |s| ==> s[j] > x) && (i > 0 ==> s[i - 1] <= x)
    ensures Place(s, x) == i
  {
    if i < |s| { PlaceIs(s[..|s| - 1], x, i); }
  }

  lemma ShiftedIs(s: seq<Tid>, x: Tid, i: nat, t: seq<Tid>)
    requires i <= |s| && Place(s, x) == i && |t| == |s| + 1 && t[i] == x
    requires (forall j :: 0 <= j < i ==> t[j] == s[j]) && (forall j :: i < j < |t| ==> t[j] == s[j - 1])
    ensures t == Inserted(s, x)
  {}

  lemma InsertedSorts(s: seq<Tid>, x: Tid)
    requires Sorted(s)
    ensures Sorted(Inserted(s, x)) && multiset(Inserted(s, x)) == multiset(s) + multiset{x}
  {
    forall i | 0 <= i < |s| ensures if i < Place(s, x) then s[i] <= x else s[i] > x { PlaceSplits(s, x, i); }
    assert s == s[..Place(s, x)] + s[Place(s, x)..];
  }

  lemma RemovedKeeps(s: seq<Tid>, i: nat)
    requires i < |s|
    ensures multiset(Removed(s, i)) + multiset{s[i]} == multiset(s) && (Sorted(s) ==> Sorted(Removed(s, i)))
  {
    assert s == s[..i] + [s[i]] + s[i + 1..];
  }

  /** One thread leaves the queue and another one enters it. */
  lemma Exchanged(s: seq<Tid>, i: nat, x: Tid)
    requires Sorted(s) && i < |s|
    ensures var q := Inserted(Removed(s, i), x);
            Sorted(q) && x in q && multiset(q) + multiset{s[i]} == multiset(s) + multiset{x}
  {
    RemovedKeeps(s, i);
    InsertedSorts(Removed(s, i), x);
    assert x in multiset(Inserted(Removed(s, i), x));
  }

  class SortedList {
    const list: array<Tid>
    var size: nat

    ghost predicate Valid()
      reads this
    {
      size <= list.Length == MAX_THREADS
    }

    ghost function Contents(): (s: seq<Tid>)
      reads this, list
      requires Valid()
    {
      list[..size]
    }

    constructor ()
      ensures Valid() && fresh(list) && Contents() == []
    {
      list := new Tid[MAX_THREADS];
      size := 0;
    }

    method Push(f: Tid)
      requires Valid() && size < MAX_THREADS
      modifies this`size, list
      ensures Valid() && Contents() == Inserted(old(Contents()), f)
    {
      var i := size;
      ghost var s := list[..size];
      size := size + 1;
      while i > 0 && list[i - 1] > f
        invariant 0 <= i <= |s| && size == |s| + 1
        invariant forall j :: 0 <= j < i ==> list[j] == s[j]
        invariant forall j :: i < j < size ==> list[j] == s[j - 1]
        invariant forall j :: i <= j < |s| ==> s[j] > f
      {
        list[i] := list[i - 1];
        i := i - 1;
      }
      PlaceIs(s, f, i);
      list[i] := f;
      ShiftedIs(s, f, i, list[..size]);
    }

    method Pop(i: nat) returns (f: Tid)
      requires Valid() && i < size
      modifies this`size, list
      ensures Valid() && f == old(Contents())[i] && Contents() == Removed(old(Contents()), i)
    {
      f := list[i];
      for j := i to size - 1
        invariant size == old(size)
        invariant forall k :: 0 <= k < i ==> list[k] == old(list[k])
        invariant forall k :: i <= k < j ==> list[k] == old(list[k + 1])
        invariant forall k :: j <= k < size ==> list[k] == old(list[k])
      {
        list[j] := list[j + 1];
      }
      size := size - 1;
    }

    method PopLast() returns (f: Option<Tid>)
      requires Valid()
      modifies this`size
      ensures Valid()
      ensures if old(Contents()) == [] then f.None? && Contents() == []
              else f == Some(old(Contents())[old(size) - 1]) && Contents() == old(Contents())[..old(size) - 1]
    {
      if size == 0 { return None; }
      size := size - 1;
      f := Some(list[size]);
    }

    method Clear()
      requires Valid()
      modifies this`size
      ensures Valid() && Contents() == []
    {
      size := 0;
    }

    method Remove(f: Tid) returns (found: bool)
      requires Valid()
      modifies this`size, list
      ensures Valid() && found == (f in old(Contents()))
      ensures !found ==> Contents() == old(Contents())
      ensures found ==> exists i :: 0 <= i < old(size) && old(Contents())[i] == f && Contents() == Removed(old(Contents()), i)
    {
      for i := 0 to size
        invariant Valid() && size == old(size) && list[..size] == old(list[..size])
        invariant forall k :: 0 <= k < i ==> list[k] != f
      {
        if list[i] == f {
          var g := Pop(i);
          return true;
        }
      }
      return false;
    }
  }

  datatype Params = Params(maxPreemptions: Option<nat>, forceAfter: Option<nat>, maxSteps: Option<nat>)

  /** Pruned: the simulation is cut off. */
  datatype Pick = Thread(t: Tid) | Pruned

  class PreemptionScheduler {
    const params: Params
    const queue: SortedList
    var preempts: nat
    var steps: nat
    var running: map<Tid, nat>   // steps of a thread since it was last picked

    ghost predicate Valid()
      reads this, queue, queue.list
    {
      && queue.Valid() && Sorted(queue.Contents())
      && (params.maxPreemptions.Some? ==> preempts <= params.maxPreemptions.value)
    }

    constructor (p: Params)
      ensures Valid() && fresh(queue) && fresh(queue.list) && params == p && queue.Contents() == [] && preempts == 0
    {
      params := p;
      queue := new SortedList();
      preempts, steps, running := 0, 0, map[];
    }

    /** A run starts with no preemption, no step and an empty queue; its threads are new. */
    method Start()
      requires Valid()
      modifies this`preempts, this`steps, this`running, queue`size
      ensures Valid() && preempts == 0 && steps == 0 && running == map[] && queue.Contents() == []
    {
      preempts, steps, running := 0, 0, map[];
      queue.Clear();
    }

    function StepsOf(t: Tid): nat
      reads this
    {
      if t in running then running[t] else 0
    }

    predicate Forced(t: Tid)
      reads this
    {
      params.forceAfter.Some? && StepsOf(t) >= params.forceAfter.value
    }

    predicate MaxPreemptsReached()
      reads this
    {
      params.maxPreemptions.Some? && preempts >= params.maxPreemptions.value
    }

    /** The step limit is exceeded by another step. */
    predicate OutOfSteps()
      reads this
    {
      params.maxSteps.Some? && steps + 1 > params.maxSteps.value
    }

    /** The steps of the threads after one more of the active one. */
    function Counted(active: Option<Tid>): map<Tid, nat>
      reads this
    {
      if active.Some? then running[active.value := StepsOf(active.value) + 1] else running
    }

    method AddStep(active: Option<Tid>) returns (pruned: bool)
      modifies this`steps, this`running
      ensures steps == old(steps) + 1 && pruned == old(OutOfSteps())
      ensures running == if pruned then old(running) else old(Counted(active))
    {
      steps := steps + 1;
      if params.maxSteps.Some? && steps > params.maxSteps.value { return true; }
      if active.Some? { running := running[active.value := StepsOf(active.value) + 1]; }
      return false;
    }

    /** Whether to preempt; `choice` answers Either. */
    method Preempt(active: Tid, preemptive: bool, choice: bool) returns (r: Option<bool>)
      requires Valid()
      ensures r.None? <==> preemptive && queue.size > 0 && Forced(active) && MaxPreemptsReached()
      ensures r == Some(true) <==> preemptive && queue.size > 0 && !MaxPreemptsReached() && (Forced(active) || choice)
    {
      if !preemptive { return Some(false); }
      if queue.size == 0 { return Some(false); }
      if Forced(active) {
        if MaxPreemptsReached() { return None; }
        return Some(true);
      }
      if MaxPreemptsReached() { return Some(false); }
      return Some(choice);
    }

    /** The position picked: no choice is made when there is only one thread. */
    function Position(index: nat): nat
      reads queue
    {
      if queue.size == 1 then 0 else index
    }

    /** Pick: a preempted thread goes back to the queue. */
    method Switch(preempted: Option<Tid>, index: nat) returns (next: Tid)
      requires Valid() && queue.size > 0 && (queue.size > 1 ==> index < queue.size) && (preempted.Some? ==> !MaxPreemptsReached())
      modifies this`preempts, this`running, queue`size, queue.list
      ensures Valid() && preempts == old(preempts) + if preempted.Some? then 1 else 0
      ensures next == old(queue.Contents())[old(Position(index))] && running == old(running)[next := 0]
      ensures var rest := Removed(old(queue.Contents()), old(Position(index)));
              queue.Contents() == if preempted.Some? then Inserted(rest, preempted.value) else rest
      ensures preempted.Some? ==> preempted.value in queue.Contents()
      ensures multiset(queue.Contents()) + multiset{next} ==
              multiset(old(queue.Contents())) + if preempted.Some? then multiset{preempted.value} else multiset{}
    {
      var i := if queue.size == 1 then 0 else index;
      ghost var s := queue.Contents();
      next := queue.Pop(i);
      if preempted.Some? {
        preempts := preempts + 1;
        Exchanged(s, i, preempted.value);
        queue.Push(preempted.value);
      } else {
        RemovedKeeps(s, i);
      }
      running := running[next := 0];
    }

    /** With this step the active thread has run for as long as it may. */
    predicate Due(active: Tid, preemptive: bool)
      reads this, queue
    {
      preemptive && queue.size > 0 && params.forceAfter.Some? && StepsOf(active) + 1 >= params.forceAfter.value
    }

    /** The active thread is preempted: another one can run, the limit allows it, and it is due or chosen. */
    predicate Preempts(active: Option<Tid>, preemptive: bool, choice: bool)
      reads this, queue
    {
      active.Some? && preemptive && queue.size > 0 && !MaxPreemptsReached() && (Due(active.value, preemptive) || choice)
    }

    /**
    The thread that runs next.  The run is cut off exactly when the steps are used up or a preemption is due
    that the limit forbids; otherwise the active thread goes on, unless it is preempted, or the thread at the
    chosen position does.  No thread is lost, the queue stays sorted, and the limit is never exceeded.
    */
    method PickNext(active: Option<Tid>, preemptive: bool, choice: bool, index: nat) returns (r: Pick)
      requires Valid() && (queue.size > 1 ==> index < queue.size) && (active.Some? || queue.size > 0)
      modifies this, queue`size, queue.list
      ensures Valid() && steps == old(steps) + 1
      ensures r.Pruned? <==> old(OutOfSteps()) || (active.Some? && old(Due(active.value, preemptive)) && old(MaxPreemptsReached()))
      ensures r.Thread? && active.Some? && !old(Preempts(active, preemptive, choice)) ==>
                && r.t == active.value && preempts == old(preempts)
                && queue.Contents() == old(queue.Contents()) && running == old(Counted(active))
      ensures r.Thread? && (active.None? || old(Preempts(active, preemptive, choice))) ==>
                && old(Position(index)) < old(queue.size)
                && r.t == old(queue.Contents())[old(Position(index))] && running == old(Counted(active))[r.t := 0]
                && preempts == old(preempts) + (if active.Some? then 1 else 0)
                && var rest := Removed(old(queue.Contents()), old(Position(index)));
                   queue.Contents() == if active.Some? then Inserted(rest, active.value) else rest
      ensures preempts == old(preempts) || (preempts == old(preempts) + 1 && active.Some? && r.Thread? && active.value in queue.Contents())
      ensures r.Thread? ==>
                multiset(queue.Contents()) + multiset{r.t} ==
                multiset(old(queue.Contents())) + (if active.Some? then multiset{active.value} else multiset{})
    {
      var pruned := AddStep(active);
      if pruned { return Pruned; }
      if active.Some? {
        var p := Preempt(active.value, preemptive, choice);
        if p.None? { return Pruned; }
        if !p.value { return Thread(active.value); }
      }
      var next := Switch(active, index);
      return Thread(next);
    }

    method Wake(t: Tid)
      requires Valid() && queue.size < MAX_THREADS
      modifies queue`size, queue.list
      ensures Valid() && multiset(queue.Contents()) == multiset(old(queue.Contents())) + multiset{t}
    {
      InsertedSorts(queue.Contents(), t);
      queue.Push(t);
    }
  }
}

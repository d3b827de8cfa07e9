/**
The retired list of a thread (src/exe/lf/memory/hazard: RetiredPtr, Mutator::Retire and
the sweep of Mutator::Scan).  Deleters are called by move assignment and by destruction,
so `freed` records each call in the order it happens.
*/
module HazardScan {

  type Addr = nat

  const SCAN_FREQ := 64

  datatype Deleter = Nop | Default

  datatype RetiredPtr = RetiredPtr(obj: Addr, deleter: Deleter)

  /** What a move leaves behind. */
  const MOVED := RetiredPtr(0, Nop)

  function Objects(r: seq<RetiredPtr>): (s: seq<Addr>)
    ensures |s| == |r| && forall i :: 0 <= i < |r| ==> s[i] == r[i].obj
  {
    seq(|r|, i requires 0 <= i < |r| => r[i].obj)
  }

  predicate Live(r: seq<RetiredPtr>)
  {
    forall i :: 0 <= i < |r| ==> r[i].deleter == Default
  }

  /** How often each object is in the list. */
  ghost function Bag(r: seq<RetiredPtr>): multiset<Addr>
  {
    multiset(Objects(r))
  }

  /** The last element takes the place of element i, and the last place is dropped. */
  function SwapRemoved(r: seq<RetiredPtr>, i: nat): seq<RetiredPtr>
    requires i < |r|
  {
    r[i := r[|r| - 1]][..|r| - 1]
  }

  lemma SwapRemoves(r: seq<RetiredPtr>, i: nat)
    requires i < |r|
    ensures Bag(SwapRemoved(r, i)) + multiset{r[i].obj} == Bag(r)
  {
    var n := |r| - 1;
    var o := Objects(r);
    var p := o[i := o[n]][n := o[i]];
    assert multiset(p) == multiset(o);
    assert p == Objects(SwapRemoved(r, i)) + [o[i]];
  }

  /** A list split by a predicate: both parts are determined, as multisets. */
  lemma Split(all: multiset<Addr>, kept: multiset<Addr>, gone: multiset<Addr>, h: set<Addr>, a: Addr)
    requires kept + gone == all && (forall x :: x in kept ==> x in h) && (forall x :: x in gone ==> x !in h)
    ensures kept[a] == (if a in h then all[a] else 0) && gone[a] == (if a in h then 0 else all[a])
  {
    assert all[a] == kept[a] + gone[a];
    if a in h { assert a !in gone; } else { assert a !in kept; }
  }

  predicate AllIn(r: seq<RetiredPtr>, n: nat, h: set<Addr>)
    requires n <= |r|
  {
    forall i :: 0 <= i < n ==> r[i].obj in h
  }

  predicate NoneIn(gone: seq<Addr>, h: set<Addr>)
  {
    forall i :: 0 <= i < |gone| ==> gone[i] !in h
  }

  /** Dropping a place that is not hazardous keeps what the sweep has reached. */
  lemma DropKeeps(r: seq<RetiredPtr>, i: nat, gone: seq<Addr>, h: set<Addr>, all: multiset<Addr>)
    requires i < |r| && Live(r) && AllIn(r, i, h) && NoneIn(gone, h) && r[i].obj !in h && Bag(r) + multiset(gone) == all
    ensures Live(SwapRemoved(r, i)) && AllIn(SwapRemoved(r, i), i, h) && NoneIn(gone + [r[i].obj], h)
    ensures Bag(SwapRemoved(r, i)) + multiset(gone + [r[i].obj]) == all
  {
    SwapRemoves(r, i);
    assert multiset(gone + [r[i].obj]) == multiset(gone) + multiset{r[i].obj};
  }

  /** What a sweep leaves and what it has freed. */
  ghost predicate Swept(all: multiset<Addr>, left: multiset<Addr>, gone: multiset<Addr>, h: set<Addr>)
  {
    forall a :: left[a] == (if a in h then all[a] else 0) && gone[a] == (if a in h then 0 else all[a])
  }

  /** A list of which only hazardous objects are left, while none of them is gone. */
  lemma SweepEnds(all: multiset<Addr>, now: seq<RetiredPtr>, gone: seq<Addr>, h: set<Addr>)
    requires Bag(now) + multiset(gone) == all && AllIn(now, |now|, h) && NoneIn(gone, h)
    ensures Swept(all, Bag(now), multiset(gone), h)
  {
    forall x | x in Objects(now) ensures x in h { var k :| 0 <= k < |now| && Objects(now)[k] == x; }
    forall x | x in gone ensures x !in h { var k :| 0 <= k < |gone| && gone[k] == x; }
    forall a ensures Bag(now)[a] == (if a in h then all[a] else 0) && multiset(gone)[a] == (if a in h then 0 else all[a]) {
      Split(all, Bag(now), multiset(gone), h, a);
    }
  }

  class ThreadState {
    var retired: seq<RetiredPtr>
    var freed: seq<Addr>

    constructor ()
      ensures retired == [] && freed == []
    {
      retired, freed := [], [];
    }

    method CallDeleter(p: RetiredPtr)
      modifies this`freed
      ensures freed == old(freed) + if p.deleter == Default then [p.obj] else []
    {
      if p.deleter == Default { freed := freed + [p.obj]; }
    }

    /** std::swap: one move construction, two move assignments, one destruction; nothing is freed, even if i == j. */
    method Swap(i: nat, j: nat)
      requires i < |retired| && j < |retired|
      modifies this
      ensures retired == old(retired)[i := old(retired)[j]][j := old(retired)[i]] && freed == old(freed)
    {
      var tmp := retired[i];
      retired := retired[i := MOVED];

      CallDeleter(retired[i]);
      retired := retired[i := retired[j]];
      retired := retired[j := MOVED];

      CallDeleter(retired[j]);
      retired := retired[j := tmp];
      tmp := MOVED;

      CallDeleter(tmp);
    }

    method PopBack()
      requires |retired| > 0 && Live(retired)
      modifies this
      ensures retired == old(retired)[..|old(retired)| - 1] && freed == old(freed) + [old(retired)[|old(retired)| - 1].obj]
    {
      CallDeleter(retired[|retired| - 1]);
      retired := retired[..|retired| - 1];
    }

    /** std::swap with the last element, then pop_back. */
    method DropAt(i: nat)
      requires i < |retired| && Live(retired)
      modifies this
      ensures retired == SwapRemoved(old(retired), i) && freed == old(freed) + [old(retired)[i].obj]
    {
      Swap(i, |retired| - 1);
      PopBack();
    }

    /** Frees exactly the retired pointers that are not hazardous, each once, and keeps all others. */
    method Sweep(hazards: set<Addr>)
      requires Live(retired)
      modifies this
      ensures Live(retired) && AllIn(retired, |retired|, hazards)
      ensures old(freed) <= freed && Swept(Bag(old(retired)), Bag(retired), multiset(freed[|old(freed)|..]), hazards)
    {
      var i := 0;
      ghost var gone: seq<Addr>, all := [], Bag(retired);
      while i < |retired|
        invariant 0 <= i <= |retired| && Live(retired) && AllIn(retired, i, hazards)
        invariant freed == old(freed) + gone && NoneIn(gone, hazards)
        invariant Bag(retired) + multiset(gone) == all
        decreases |retired| - i
      {
        if retired[i].obj !in hazards {
          DropKeeps(retired, i, gone, hazards, all);
          gone := gone + [retired[i].obj];
          DropAt(i);
        } else {
          i := i + 1;
        }
      }
      assert freed[|old(freed)|..] == gone;
      SweepEnds(all, retired, gone, hazards);
    }

    /** Retire: the list grows by one, and is swept only above the threshold. */
    method Retire(obj: Addr, hazards: set<Addr>)
      requires Live(retired)
      modifies this
      ensures Live(retired) && old(freed) <= freed
      ensures |old(retired)| < SCAN_FREQ ==> retired == old(retired) + [RetiredPtr(obj, Default)] && freed == old(freed)
      ensures |old(retired)| >= SCAN_FREQ ==>
                && AllIn(retired, |retired|, hazards)
                && Swept(Bag(old(retired)) + multiset{obj}, Bag(retired), multiset(freed[|old(freed)|..]), hazards)
    {
      ghost var was := retired;
      retired := retired + [RetiredPtr(obj, Default)];
      assert Objects(retired) == Objects(was) + [obj];
      if |retired| > SCAN_FREQ { Sweep(hazards); }
    }
  }
}

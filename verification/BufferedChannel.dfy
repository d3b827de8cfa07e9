/**
The buffered channel of fibers (src/exe/fiber/sync/channel/buffered.hpp).  ChannelRing is
the ring over a vector that grows while the channel is young; BufferedChannel is the
protocol of senders and receivers around it, one critical section of the spin lock per step.
*/
module ChannelRing {

  /** The elements from `head` up to `tail`, around the end of the vector. */
  function Span<T>(head: nat, tail: nat, data: seq<T>): (s: seq<T>)
    requires head <= |data| && tail <= |data|
  {
    if head <= tail then data[head..tail] else data[head..] + data[..tail]
  }

  lemma PutSpans<T>(head: nat, tail: nat, capacity: nat, data: seq<T>, value: T)
    requires head <= capacity && tail <= capacity && tail <= |data| <= capacity + 1 && head <= |data|
    requires (|data| <= capacity ==> tail == |data| && head <= tail) && head != (if tail == capacity then 0 else tail + 1)
    ensures var data' := if |data| < capacity + 1 then data + [value] else data[tail := value];
            var tail' := if tail == capacity then 0 else tail + 1;
            Span(head, tail', data') == Span(head, tail, data) + [value]
  {
    var data' := if |data| < capacity + 1 then data + [value] else data[tail := value];
    if head <= tail {
      SlotPut(data, data', head, tail, value);
      if tail == capacity { assert data'[head..] + data'[..0] == data'[head..tail + 1]; }
    } else {
      SlotPut(data, data', 0, tail, value);
      assert data'[head..] == data[head..];
      assert data[head..] + (data[..tail] + [value]) == data[head..] + data[..tail] + [value];
    }
  }

  lemma SlotPut<T>(data: seq<T>, data': seq<T>, from: nat, tail: nat, value: T)
    requires from <= tail < |data'| && tail <= |data| && data'[..tail] == data[..tail] && data'[tail] == value
    ensures data'[from..tail + 1] == data[from..tail] + [value]
  {
    forall j | from <= j < tail ensures data'[j] == data[j] { assert data'[j] == data'[..tail][j]; }
  }

  class Ring<T> {
    const capacity: nat
    var head: nat
    var tail: nat
    var data: seq<T>

    /** While the vector still grows, the tail is its end; afterwards it has a spare slot. */
    ghost predicate Valid()
      reads this
    {
      && head <= capacity && tail <= capacity && |data| <= capacity + 1
      && (|data| <= capacity ==> tail == |data| && head <= tail)
    }

    ghost function Contents(): (s: seq<T>)
      reads this
      requires Valid()
    {
      Span(head, tail, data)
    }

    constructor (c: nat)
      ensures Valid() && capacity == c && Contents() == []
    {
      capacity := c;
      head, tail, data := 0, 0, [];
    }

    function Next(ptr: nat): (r: nat)
      ensures r <= capacity && (ptr <= capacity ==> r == if ptr == capacity then 0 else ptr + 1)
    {
      (ptr + 1) % (capacity + 1)
    }

    predicate IsEmpty()
      reads this
      requires Valid()
      ensures IsEmpty() <==> Contents() == []
    {
      tail == head
    }

    /** One slot stays free, so that a full ring differs from an empty one. */
    predicate IsFull()
      reads this
      requires Valid()
      ensures IsFull() <==> |Contents()| == capacity
    {
      Next(tail) == head
    }

    /** The part of Send after the wait. */
    method Put(value: T)
      requires Valid() && !IsFull()
      modifies this
      ensures Valid() && Contents() == old(Contents()) + [value]
    {
      PutSpans(head, tail, capacity, data, value);
      if |data| < capacity + 1 {
        data := data + [value];
      } else {
        data := data[tail := value];
      }
      tail := Next(tail);
    }

    /** The part of Recv after the wait. */
    method Take() returns (value: T)
      requires Valid() && !IsEmpty()
      modifies this`head
      ensures Valid() && old(Contents()) == [value] + Contents()
    {
      value := data[head];
      head := Next(head);
    }
  }
}

module BufferedChannel {
  import opened Sums

  type Value = int

  datatype Pc =
    | Idle
    | Sending(v: Value) | SendParked(v: Value) | SendWoken(v: Value)
    | Receiving | RecvParked | RecvWoken
    | Received(v: Value)

  /** `sent` and `received` are history. */
  datatype State = State(
    capacity: nat, items: seq<Value>, senders: seq<nat>, recvs: seq<nat>, fibers: seq<Pc>,
    sent: seq<Value>, received: seq<Value>)

  ghost predicate Init(s: State)
  {
    && s.items == [] && s.senders == [] && s.recvs == [] && s.sent == [] && s.received == []
    && forall f :: 0 <= f < |s.fibers| ==> s.fibers[f] == Idle
  }

  function Go(s: State, f: nat, pc: Pc): State
    requires f < |s.fibers|
  {
    s.(fibers := s.fibers[f := pc])
  }

  ghost predicate CallStep(s: State, f: nat, s': State)
    requires f < |s.fibers|
  {
    || (s.fibers[f].Idle? && (s' == Go(s, f, Receiving) || exists v :: s' == Go(s, f, Sending(v))))
    || (s.fibers[f].Received? && s' == Go(s, f, Idle))
  }

  /** Schedule the first of the queued receivers. */
  function WakeReceiver(s: State): State
  {
    if s.recvs == [] || s.recvs[0] >= |s.fibers| then s else Go(s, s.recvs[0], RecvWoken).(recvs := s.recvs[1..])
  }

  function WakeSender(s: State): State
  {
    if s.senders == [] || s.senders[0] >= |s.fibers| then s
    else
      var u := s.senders[0];
      var pc := s.fibers[u];
      Go(s, u, if pc.SendParked? then SendWoken(pc.v) else pc).(senders := s.senders[1..])
  }

  predicate SendStep(s: State, f: nat, s': State)
    requires f < |s.fibers|
  {
    var pc := s.fibers[f];
    && (pc.Sending? || pc.SendWoken?)
    && s' == if |s.items| == s.capacity then
               Go(s, f, SendParked(pc.v)).(senders := s.senders + [f])
             else
               WakeReceiver(Go(s, f, Idle).(items := s.items + [pc.v], sent := s.sent + [pc.v]))
  }

  predicate RecvStep(s: State, f: nat, s': State)
    requires f < |s.fibers|
  {
    var pc := s.fibers[f];
    && (pc.Receiving? || pc.RecvWoken?)
    && s' == if s.items == [] then
               Go(s, f, RecvParked).(recvs := s.recvs + [f])
             else
               WakeSender(Go(s, f, Received(s.items[0])).(items := s.items[1..], received := s.received + [s.items[0]]))
  }

  ghost predicate FiberStep(s: State, f: nat, s': State)
  {
    f < |s.fibers| && (CallStep(s, f, s') || SendStep(s, f, s') || RecvStep(s, f, s'))
  }

  ghost predicate Next(s: State, s': State)
  {
    exists f :: FiberStep(s, f, s')
  }

  ghost predicate IsRun(run: seq<State>)
  {
    |run| > 0 && Init(run[0]) && forall i :: 0 < i < |run| ==> Next(run[i - 1], run[i])
  }

  // ---- what every step keeps --------------------------------------------------------------------------

  function Woken(fibers: seq<Pc>, recv: bool): seq<int>
  {
    seq(|fibers|, i requires 0 <= i < |fibers| => if (if recv then fibers[i].RecvWoken? else fibers[i].SendWoken?) then 1 else 0)
  }

  predicate IsParked(pc: Pc, send: bool)
  {
    if send then pc.SendParked? else pc.RecvParked?
  }

  predicate Member(fibers: seq<Pc>, list: seq<nat>, send: bool, i: nat)
    requires i < |list|
  {
    list[i] < |fibers| && IsParked(fibers[list[i]], send) && forall j :: 0 <= j < i ==> list[j] != list[i]
  }

  /** The list holds the parked fibers of one kind, each once. */
  predicate Lists(fibers: seq<Pc>, list: seq<nat>, send: bool)
  {
    && (forall i {:trigger Member(fibers, list, send, i)} :: 0 <= i < |list| ==> Member(fibers, list, send, i))
    && (forall f :: 0 <= f < |fibers| && IsParked(fibers[f], send) ==> f in list)
  }

  predicate Parked(s: State)
  {
    Lists(s.fibers, s.recvs, false) && Lists(s.fibers, s.senders, true)
  }

  lemma ListsOther(fibers: seq<Pc>, list: seq<nat>, send: bool, f: nat, pc: Pc)
    requires Lists(fibers, list, send) && f < |fibers| && !IsParked(fibers[f], send) && !IsParked(pc, send)
    ensures Lists(fibers[f := pc], list, send)
  {
    var fs := fibers[f := pc];
    forall i | 0 <= i < |list| ensures Member(fs, list, send, i) { assert Member(fibers, list, send, i); }
  }

  lemma ListsPush(fibers: seq<Pc>, list: seq<nat>, send: bool, f: nat, pc: Pc)
    requires Lists(fibers, list, send) && f < |fibers| && !IsParked(fibers[f], send) && IsParked(pc, send)
    ensures Lists(fibers[f := pc], list + [f], send)
  {
    var fs, list' := fibers[f := pc], list + [f];
    forall i | 0 <= i < |list| ensures Member(fs, list', send, i) && list[i] != f { assert Member(fibers, list, send, i); }
    assert Member(fs, list', send, |list|);
  }

  lemma ListsPop(fibers: seq<Pc>, list: seq<nat>, send: bool, pc: Pc)
    requires Lists(fibers, list, send) && list != [] && !IsParked(pc, send)
    ensures Member(fibers, list, send, 0) && Lists(fibers[list[0] := pc], list[1..], send)
  {
    assert Member(fibers, list, send, 0);
    var fs, list' := fibers[list[0] := pc], list[1..];
    forall i | 0 <= i < |list'| ensures Member(fs, list', send, i) {
      assert Member(fibers, list, send, i + 1);
      assert list'[i] == list[i + 1] && forall j :: 0 <= j < i ==> list'[j] == list[j + 1];
    }
    forall f | 0 <= f < |fibers| && IsParked(fs[f], send) ensures f in list' {
      var k :| 0 <= k < |list| && list[k] == f;
      assert list'[k - 1] == f;
    }
  }

  /** Queued receivers see no item that is not already promised to a woken one; and dually for senders and free slots. */
  predicate Promised(s: State)
  {
    && (s.recvs != [] ==> |s.items| <= Sum(Woken(s.fibers, true)))
    && (s.senders != [] ==> s.capacity - |s.items| <= Sum(Woken(s.fibers, false)))
  }

  ghost predicate Inv(s: State)
  {
    Parked(s) && Promised(s) && |s.items| <= s.capacity && s.sent == s.received + s.items
  }

  /** One fiber changes its state. */
  lemma WokenUpdate(fibers: seq<Pc>, f: nat, pc: Pc, recv: bool)
    requires f < |fibers|
    ensures var one := (p: Pc) => if (if recv then p.RecvWoken? else p.SendWoken?) then 1 else 0;
            Sum(Woken(fibers[f := pc], recv)) == Sum(Woken(fibers, recv)) - one(fibers[f]) + one(pc)
  {
    var w := if (if recv then pc.RecvWoken? else pc.SendWoken?) then 1 else 0;
    assert Woken(fibers[f := pc], recv) == Woken(fibers, recv)[f := w];
    SumUpdate(Woken(fibers, recv), f, w);
  }

  lemma WokenPositive(fibers: seq<Pc>, recv: bool)
    ensures Sum(Woken(fibers, recv)) >= 0
  {
    SumZero(Woken(fibers, recv));
  }

  lemma CallKeeps(s: State, f: nat, s': State)
    requires Inv(s) && f < |s.fibers| && CallStep(s, f, s')
    ensures Inv(s')
  {
    WokenUpdate(s.fibers, f, s'.fibers[f], true);
    WokenUpdate(s.fibers, f, s'.fibers[f], false);
    ListsOther(s.fibers, s.recvs, false, f, s'.fibers[f]);
    ListsOther(s.fibers, s.senders, true, f, s'.fibers[f]);
  }

  /** Whoever is woken leaves its list. */
  lemma WakeKeeps(s: State)
    requires Parked(s)
    ensures Parked(WakeReceiver(s)) && Parked(WakeSender(s))
  {
    if s.recvs != [] {
      ListsPop(s.fibers, s.recvs, false, RecvWoken);
      ListsOther(s.fibers, s.senders, true, s.recvs[0], RecvWoken);
    }
    if s.senders != [] {
      assert Member(s.fibers, s.senders, true, 0);
      var pc := SendWoken(s.fibers[s.senders[0]].v);
      ListsPop(s.fibers, s.senders, true, pc);
      ListsOther(s.fibers, s.recvs, false, s.senders[0], pc);
    }
  }

  lemma SendPromised(s: State, f: nat, s': State)
    requires Inv(s) && f < |s.fibers| && SendStep(s, f, s') && |s.items| < s.capacity
    ensures Promised(s')
  {
    var fs1 := s.fibers[f := Idle];
    WokenUpdate(s.fibers, f, Idle, true);
    WokenUpdate(s.fibers, f, Idle, false);
    if s.recvs != [] {
      assert Member(s.fibers, s.recvs, false, 0);
      WokenUpdate(fs1, s.recvs[0], RecvWoken, true);
      WokenUpdate(fs1, s.recvs[0], RecvWoken, false);
    }
  }

  lemma SendKeeps(s: State, f: nat, s': State)
    requires Inv(s) && f < |s.fibers| && SendStep(s, f, s')
    ensures Inv(s')
  {
    if |s.items| == s.capacity {
      WokenUpdate(s.fibers, f, s'.fibers[f], true);
      WokenUpdate(s.fibers, f, s'.fibers[f], false);
      WokenPositive(s'.fibers, false);
      ListsPush(s.fibers, s.senders, true, f, s'.fibers[f]);
      ListsOther(s.fibers, s.recvs, false, f, s'.fibers[f]);
    } else {
      var v := s.fibers[f].v;
      var s1 := Go(s, f, Idle).(items := s.items + [v], sent := s.sent + [v]);
      ListsOther(s.fibers, s.recvs, false, f, s1.fibers[f]);
      ListsOther(s.fibers, s.senders, true, f, s1.fibers[f]);
      WakeKeeps(s1);
      SendPromised(s, f, s');
      assert s.received + (s.items + [v]) == (s.received + s.items) + [v];
    }
  }

  lemma RecvPromised(s: State, f: nat, s': State)
    requires Inv(s) && f < |s.fibers| && RecvStep(s, f, s') && s.items != []
    ensures Promised(s')
  {
    var pc := Received(s.items[0]);
    var fs1 := s.fibers[f := pc];
    WokenUpdate(s.fibers, f, pc, true);
    WokenUpdate(s.fibers, f, pc, false);
    if s.senders != [] {
      var u := s.senders[0];
      assert Member(s.fibers, s.senders, true, 0);
      WokenUpdate(fs1, u, SendWoken(fs1[u].v), true);
      WokenUpdate(fs1, u, SendWoken(fs1[u].v), false);
    }
  }

  lemma RecvKeeps(s: State, f: nat, s': State)
    requires Inv(s) && f < |s.fibers| && RecvStep(s, f, s')
    ensures Inv(s')
  {
    if s.items == [] {
      WokenUpdate(s.fibers, f, RecvParked, true);
      WokenUpdate(s.fibers, f, RecvParked, false);
      WokenPositive(s'.fibers, true);
      ListsPush(s.fibers, s.recvs, false, f, RecvParked);
      ListsOther(s.fibers, s.senders, true, f, RecvParked);
    } else {
      var s1 := Go(s, f, Received(s.items[0])).(items := s.items[1..], received := s.received + [s.items[0]]);
      ListsOther(s.fibers, s.recvs, false, f, s1.fibers[f]);
      ListsOther(s.fibers, s.senders, true, f, s1.fibers[f]);
      WakeKeeps(s1);
      RecvPromised(s, f, s');
      assert s.received + s.items == (s.received + [s.items[0]]) + s.items[1..];
    }
  }

  lemma {:induction false} RunKeeps(run: seq<State>, n: nat)
    requires IsRun(run) && n < |run|
    ensures Inv(run[n])
  {
    if n > 0 {
      RunKeeps(run, n - 1);
      assert Next(run[n - 1], run[n]);
      var f: nat :| FiberStep(run[n - 1], f, run[n]);
      var s, s' := run[n - 1], run[n];
      if CallStep(s, f, s') { CallKeeps(s, f, s'); } else if SendStep(s, f, s') { SendKeeps(s, f, s'); } else { RecvKeeps(s, f, s'); }
    }
  }

  // ---- what users rely on -------------------------------------------------------------------------------

  /** Values are received in the order they were sent, none lost or repeated, and at most `capacity` are under way. */
  lemma DeliversInOrder(run: seq<State>, n: nat)
    requires IsRun(run) && n < |run|
    ensures run[n].sent == run[n].received + run[n].items && |run[n].items| <= run[n].capacity
  {
    RunKeeps(run, n);
  }

  /** No wake-up is lost: when nobody is about to enter the channel, a parked receiver means an empty buffer and a parked sender a full one. */
  lemma NobodyStranded(run: seq<State>, n: nat)
    requires IsRun(run) && n < |run|
    requires forall f :: 0 <= f < |run[n].fibers| ==> !run[n].fibers[f].RecvWoken? && !run[n].fibers[f].SendWoken?
    ensures forall f :: 0 <= f < |run[n].fibers| && run[n].fibers[f].RecvParked? ==> run[n].items == []
    ensures forall f :: 0 <= f < |run[n].fibers| && run[n].fibers[f].SendParked? ==> |run[n].items| == run[n].capacity
    ensures run[n].capacity > 0 ==> forall f, g :: 0 <= f < |run[n].fibers| && 0 <= g < |run[n].fibers| ==>
              !(run[n].fibers[f].RecvParked? && run[n].fibers[g].SendParked?)
  {
    RunKeeps(run, n);
    SumAllZero(Woken(run[n].fibers, true));
    SumAllZero(Woken(run[n].fibers, false));
  }
}

/**
What the callers of a channel see: every run is a run of a bounded first-in-first-out queue, and
parked fibers of either kind are woken in the order in which they parked.
*/
module ChannelTheorems {
  import opened BufferedChannel

  // ---- the specification -----------------------------------------------------------------

  /** The call of a fiber: its argument, or the value it returns with. */
  datatype Op = Free | Sends(v: Value) | Receives | Returns(v: Value)

  datatype Spec = Spec(capacity: nat, q: seq<Value>, ops: seq<Op>)

  predicate Moves(capacity: nat, q: seq<Value>, op: Op, q': seq<Value>, op': Op)
  {
    || (q' == q && op' == op)
    || (q' == q && op.Free? && (op'.Sends? || op'.Receives?))                     // a call
    || (op.Sends? && op' == Free && |q| < capacity && q' == q + [op.v])           // Send returns
    || (op.Receives? && op'.Returns? && q == [op'.v] + q')                        // Recv is about to return
    || (q' == q && op.Returns? && op' == Free)
  }

  predicate SpecStep(a: Spec, f: nat, a': Spec)
  {
    && f < |a.ops| == |a'.ops| && a'.capacity == a.capacity && a'.ops == a.ops[f := a'.ops[f]]
    && Moves(a.capacity, a.q, a.ops[f], a'.q, a'.ops[f])
  }

  ghost predicate SpecNext(a: Spec, a': Spec)
  {
    exists f :: SpecStep(a, f, a')
  }

  ghost predicate SpecRun(run: seq<Spec>)
  {
    && |run| > 0 && run[0].q == [] && (forall f :: 0 <= f < |run[0].ops| ==> run[0].ops[f] == Free)
    && forall i :: 0 < i < |run| ==> SpecNext(run[i - 1], run[i])
  }

  // ---- the abstraction -----------------------------------------------------------------------

  function OpOf(pc: Pc): Op
  {
    match pc
    case Idle => Free
    case Sending(v) => Sends(v)
    case SendParked(v) => Sends(v)
    case SendWoken(v) => Sends(v)
    case Receiving => Receives
    case RecvParked => Receives
    case RecvWoken => Receives
    case Received(v) => Returns(v)
  }

  function Abs(s: State): Spec
  {
    Spec(s.capacity, s.items, seq(|s.fibers|, f requires 0 <= f < |s.fibers| => OpOf(s.fibers[f])))
  }

  /** Other fibers are at most woken, which they do not notice. */
  predicate Unnoticed(s: State, f: nat, s': State)
  {
    && f < |s.fibers| == |s'.fibers| && s'.capacity == s.capacity
    && forall u :: 0 <= u < |s.fibers| && u != f ==> OpOf(s'.fibers[u]) == OpOf(s.fibers[u])
  }

  lemma SendMoves(s: State, f: nat, s': State)
    requires Inv(s) && f < |s.fibers| && SendStep(s, f, s')
    ensures Unnoticed(s, f, s') && Moves(s.capacity, s.items, OpOf(s.fibers[f]), s'.items, OpOf(s'.fibers[f]))
  {
    if s.recvs != [] { assert Member(s.fibers, s.recvs, false, 0); }
  }

  lemma RecvMoves(s: State, f: nat, s': State)
    requires Inv(s) && f < |s.fibers| && RecvStep(s, f, s')
    ensures Unnoticed(s, f, s') && Moves(s.capacity, s.items, OpOf(s.fibers[f]), s'.items, OpOf(s'.fibers[f]))
  {
    if s.senders != [] { assert Member(s.fibers, s.senders, true, 0); }
  }

  lemma StepRefines(s: State, f: nat, s': State)
    requires Inv(s) && FiberStep(s, f, s')
    ensures SpecStep(Abs(s), f, Abs(s'))
  {
    if SendStep(s, f, s') { SendMoves(s, f, s'); } else if RecvStep(s, f, s') { RecvMoves(s, f, s'); }
    assert Unnoticed(s, f, s');
    assert Abs(s').ops == Abs(s).ops[f := OpOf(s'.fibers[f])];
  }

  /** Every run is a run of the bounded queue. */
  lemma RunRefines(run: seq<State>)
    requires IsRun(run)
    ensures SpecRun(seq(|run|, i requires 0 <= i < |run| => Abs(run[i])))
  {
    var abs := seq(|run|, i requires 0 <= i < |run| => Abs(run[i]));
    assert abs[0] == Abs(run[0]);
    forall i | 0 < i < |abs| ensures SpecNext(abs[i - 1], abs[i]) {
      RunKeeps(run, i - 1);
      assert Next(run[i - 1], run[i]);
      var f: nat :| FiberStep(run[i - 1], f, run[i]);
      StepRefines(run[i - 1], f, run[i]);
      assert SpecStep(abs[i - 1], f, abs[i]);
    }
  }

  // ---- values over a whole run ------------------------------------------------------------------

  /** A run together with the fiber that makes each step. */
  ghost predicate Scheduled(run: seq<State>, fs: seq<nat>)
  {
    IsRun(run) && |fs| == |run| - 1 && forall i :: 0 <= i < |fs| ==> FiberStep(run[i], fs[i], run[i + 1])
  }

  lemma {:induction false} HasSchedule(run: seq<State>) returns (fs: seq<nat>)
    requires IsRun(run)
    ensures Scheduled(run, fs)
  {
    var n := |run| - 1;
    fs := [];
    if n > 0 {
      var before := run[..n];
      forall i | 0 < i < n ensures Next(before[i - 1], before[i]) { assert Next(run[i - 1], run[i]); }
      fs := HasSchedule(before);
      assert Next(run[n - 1], run[n]);
      var f: nat :| FiberStep(run[n - 1], f, run[n]);
      forall i | 0 <= i < n - 1 ensures FiberStep(run[i], fs[i], run[i + 1]) {
        assert FiberStep(before[i], fs[i], before[i + 1]);
      }
      fs := fs + [f];
    }
  }

  function OpAt(s: State, f: nat): Op
  {
    if f < |s.fibers| then OpOf(s.fibers[f]) else Free
  }

  /** The arguments of the sends that have returned, in that order. */
  function Sent(run: seq<State>, fs: seq<nat>, n: nat): seq<Value>
    requires n <= |fs| && n < |run|
  {
    if n == 0 then []
    else
      var op, op' := OpAt(run[n - 1], fs[n - 1]), OpAt(run[n], fs[n - 1]);
      Sent(run, fs, n - 1) + if op.Sends? && op'.Free? then [op.v] else []
  }

  /** What the receivers return with, in that order. */
  function Returned(run: seq<State>, fs: seq<nat>, n: nat): seq<Value>
    requires n <= |fs| && n < |run|
  {
    if n == 0 then []
    else
      var op, op' := OpAt(run[n - 1], fs[n - 1]), OpAt(run[n], fs[n - 1]);
      Returned(run, fs, n - 1) + if op.Receives? && op'.Returns? then [op'.v] else []
  }

  /** What receivers return with, followed by the buffer, is what senders gave; nothing is lost, repeated or overtaken. */
  lemma {:induction false} ReturnsWhatWasSent(run: seq<State>, fs: seq<nat>, n: nat)
    requires Scheduled(run, fs) && n < |run|
    ensures Sent(run, fs, n) == Returned(run, fs, n) + run[n].items
    ensures Sent(run, fs, n) == run[n].sent && Returned(run, fs, n) == run[n].received
  {
    if n > 0 {
      ReturnsWhatWasSent(run, fs, n - 1);
      var s, f, s' := run[n - 1], fs[n - 1], run[n];
      assert FiberStep(s, f, s');
      RunKeeps(run, n - 1);
      RunKeeps(run, n);
      StepRecords(s, f, s');
    }
  }

  lemma StepRecords(s: State, f: nat, s': State)
    requires Inv(s) && FiberStep(s, f, s')
    ensures s'.sent == s.sent + if OpAt(s, f).Sends? && OpAt(s', f).Free? then [OpAt(s, f).v] else []
    ensures s'.received == s.received + if OpAt(s, f).Receives? && OpAt(s', f).Returns? then [OpAt(s', f).v] else []
  {
    if SendStep(s, f, s') { SendRecords(s, f, s'); } else if RecvStep(s, f, s') { RecvRecords(s, f, s'); }
  }

  lemma SendRecords(s: State, f: nat, s': State)
    requires Inv(s) && f < |s.fibers| && SendStep(s, f, s')
    ensures OpAt(s, f).Sends? && s'.received == s.received
    ensures s'.sent == s.sent + if OpAt(s', f).Free? then [OpAt(s, f).v] else []
  {
    if s.recvs != [] { assert Member(s.fibers, s.recvs, false, 0); }
  }

  lemma RecvRecords(s: State, f: nat, s': State)
    requires Inv(s) && f < |s.fibers| && RecvStep(s, f, s')
    ensures OpAt(s, f).Receives? && s'.sent == s.sent
    ensures s'.received == s.received + if OpAt(s', f).Returns? then [OpAt(s', f).v] else []
  {
    if s.senders != [] { assert Member(s.fibers, s.senders, true, 0); }
  }

  // ---- the order of waking ---------------------------------------------------------------------

  /** Fibers from i on that the step wakes. */
  function RousedFrom(fs: seq<Pc>, fs': seq<Pc>, send: bool, i: nat): seq<nat>
    requires |fs| == |fs'|
    decreases |fs| - i
  {
    if i >= |fs| then []
    else (if IsParked(fs[i], send) && !IsParked(fs'[i], send) then [i] else []) + RousedFrom(fs, fs', send, i + 1)
  }

  lemma {:induction false} RousedNone(fs: seq<Pc>, fs': seq<Pc>, send: bool, i: nat)
    requires |fs| == |fs'| && forall u :: i <= u < |fs| && IsParked(fs[u], send) ==> IsParked(fs'[u], send)
    ensures RousedFrom(fs, fs', send, i) == []
    decreases |fs| - i
  {
    if i < |fs| { RousedNone(fs, fs', send, i + 1); }
  }

  lemma {:induction false} RousedOne(fs: seq<Pc>, fs': seq<Pc>, send: bool, i: nat, w: nat)
    requires |fs| == |fs'| && i <= w < |fs| && IsParked(fs[w], send) && !IsParked(fs'[w], send)
    requires forall u :: i <= u < |fs| && u != w && IsParked(fs[u], send) ==> IsParked(fs'[u], send)
    ensures RousedFrom(fs, fs', send, i) == [w]
    decreases |fs| - i
  {
    if i < w { RousedOne(fs, fs', send, i + 1, w); } else { RousedNone(fs, fs', send, i + 1); }
  }

  function Roused(s: State, s': State, send: bool): seq<nat>
  {
    if |s.fibers| == |s'.fibers| then RousedFrom(s.fibers, s'.fibers, send, 0) else []
  }

  function Parking(f: nat, s': State, send: bool): seq<nat>
  {
    if f < |s'.fibers| && IsParked(s'.fibers[f], send) then [f] else []
  }

  function List(s: State, send: bool): seq<nat>
  {
    if send then s.senders else s.recvs
  }

  lemma ListStays(s: State, f: nat, s': State, send: bool)
    requires |s'.fibers| == |s.fibers| && f < |s.fibers| && s'.fibers == s.fibers[f := s'.fibers[f]] && !IsParked(s.fibers[f], send)
    ensures Roused(s, s', send) == []
  {
    RousedNone(s.fibers, s'.fibers, send, 0);
  }

  lemma WaitersStep(s: State, f: nat, s': State, send: bool)
    requires Inv(s) && FiberStep(s, f, s')
    ensures List(s, send) + Parking(f, s', send) == Roused(s, s', send) + List(s', send)
  {
    if CallStep(s, f, s') { ListStays(s, f, s', send); }
    else if SendStep(s, f, s') { WaitersSend(s, f, s', send); }
    else { WaitersRecv(s, f, s', send); }
  }

  lemma WaitersSend(s: State, f: nat, s': State, send: bool)
    requires Inv(s) && f < |s.fibers| && SendStep(s, f, s')
    ensures List(s, send) + Parking(f, s', send) == Roused(s, s', send) + List(s', send)
  {
    if |s.items| == s.capacity || s.recvs == [] {
      ListStays(s, f, s', send);
    } else {
      SendRouses(s, f, s', send);
    }
  }

  lemma SendRouses(s: State, f: nat, s': State, send: bool)
    requires Inv(s) && f < |s.fibers| && SendStep(s, f, s') && |s.items| < s.capacity && s.recvs != []
    ensures Parking(f, s', send) == [] && List(s, send) == Roused(s, s', send) + List(s', send)
  {
    var w := s.recvs[0];
    assert Member(s.fibers, s.recvs, false, 0) && w != f;
    assert s'.fibers == s.fibers[f := Idle][w := RecvWoken];
    if send { RousedNone(s.fibers, s'.fibers, send, 0); } else { RousedOne(s.fibers, s'.fibers, send, 0, w); }
  }

  lemma WaitersRecv(s: State, f: nat, s': State, send: bool)
    requires Inv(s) && f < |s.fibers| && RecvStep(s, f, s')
    ensures List(s, send) + Parking(f, s', send) == Roused(s, s', send) + List(s', send)
  {
    if s.items == [] || s.senders == [] {
      ListStays(s, f, s', send);
    } else {
      RecvRouses(s, f, s', send);
    }
  }

  lemma RecvRouses(s: State, f: nat, s': State, send: bool)
    requires Inv(s) && f < |s.fibers| && RecvStep(s, f, s') && s.items != [] && s.senders != []
    ensures Parking(f, s', send) == [] && List(s, send) == Roused(s, s', send) + List(s', send)
  {
    var w := s.senders[0];
    assert Member(s.fibers, s.senders, true, 0) && w != f;
    assert s'.fibers == s.fibers[f := Received(s.items[0])][w := SendWoken(s.fibers[w].v)];
    if send { RousedOne(s.fibers, s'.fibers, send, 0, w); } else { RousedNone(s.fibers, s'.fibers, send, 0); }
  }

  function AllParked(run: seq<State>, fs: seq<nat>, n: nat, send: bool): seq<nat>
    requires n <= |fs| && n < |run|
  {
    if n == 0 then [] else AllParked(run, fs, n - 1, send) + Parking(fs[n - 1], run[n], send)
  }

  function AllRoused(run: seq<State>, n: nat, send: bool): seq<nat>
    requires n < |run|
  {
    if n == 0 then [] else AllRoused(run, n - 1, send) + Roused(run[n - 1], run[n], send)
  }

  /** Senders, and likewise receivers, are woken in the order in which they parked. */
  lemma {:induction false} WokenInOrder(run: seq<State>, fs: seq<nat>, n: nat, send: bool)
    requires Scheduled(run, fs) && n < |run|
    ensures AllParked(run, fs, n, send) == AllRoused(run, n, send) + List(run[n], send)
  {
    if n > 0 {
      WokenInOrder(run, fs, n - 1, send);
      var s, f, s' := run[n - 1], fs[n - 1], run[n];
      assert FiberStep(s, f, s');
      RunKeeps(run, n - 1);
      WaitersStep(s, f, s', send);
      Append(AllRoused(run, n - 1, send), List(s, send), Parking(f, s', send), Roused(s, s', send), List(s', send));
    }
  }

  lemma Append(done: seq<nat>, list: seq<nat>, more: seq<nat>, less: seq<nat>, list': seq<nat>)
    requires list + more == less + list'
    ensures done + list + more == done + less + list'
  {
    assert done + list + more == done + (list + more);
    assert done + less + list' == done + (less + list');
  }
}

/**
The fast thread pool (src/exe/sched/tp/fast): workers with a LIFO slot and a local
ring, a global queue, and the protocol by which they steal, park and are woken.
Threads 0 to workers-1 are the workers; all others submit from outside.  Ring and queue
operations are single steps, as the ring's own refinement and the queue's lock allow;
Grab may take fewer tasks than asked for, and a size estimate may be any number.
Stopping the pool is not part of the model.
*/
module FastPool {

  type Task = nat

  datatype Option<+X> = None | Some(value: X)

  /** Where a thread goes on after waking others. */
  datatype After = ToIdle | ToRunning | ToTask(x: Task)

  datatype Pc =
      // a thread outside the pool
    | Idle
    | Outside(x: Task)
      // Submit by a worker, from the task it runs
    | Running
    | Yielding(x: Task)
    | Hinted(x: Task)
    | Pushing(x: Task)
    | Offloading(x: Task)
    | Spilling(xs: seq<Task>)
      // the deferred wake-up of Submit; TryWakeOneWorker; Wake
    | Notify(k: After)
    | Waking(n: nat, k: After)   // n more calls of PopWaiter
    | Bumping(w: nat, n: nat, k: After)
    | Unparking(w: nat, n: nat, k: After)
      // PickTask
    | Got(x: Task)
    | PickFirst(again: bool)     // again: TryPickTask after a park
    | PickLifo(again: bool)
    | PickLocal(again: bool)
    | PickGlobal(again: bool)
      // TryPickTaskBeforePark; `park` is the value of wakeups_ read before the final attempt
    | SpinUp
    | Stealing(order: seq<nat>, park: Option<nat>)
    | Grabbing(n: nat, order: seq<nat>, park: Option<nat>)
    | Stashing(rest: seq<Task>, x: Task, park: Option<nat>)
    | SpinDown(x: Task)
    | ReadWakeups
    | PushWaiter(seen: nat)
    | Unspin(seen: nat)
    | LastGlobal(seen: nat)
    | Parking(seen: nat)
    | Asleep(seen: nat)
    | Aborted

  datatype Thread = Thread(pc: Pc, ring: seq<Task>, lifo: Option<Task>, wakeups: nat, iter: nat)

  /** `submitted` and `picked` are history. */
  datatype Pool = Pool(
    cap: nat,                    // the capacity of a ring
    workers: nat,
    global: seq<Task>,
    waiters: seq<nat>,
    spinning: int,
    threads: seq<Thread>,
    submitted: multiset<Task>,
    picked: multiset<Task>)

  const GLOBAL_EVERY := 61

  ghost predicate Init(s: Pool)
  {
    && (s.cap == 7 || s.cap == 256) && 1 <= s.workers <= |s.threads|
    && s.global == [] && s.waiters == [] && s.spinning == 0 && s.submitted == s.picked == multiset{}
    && forall t :: 0 <= t < |s.threads| ==>
         s.threads[t] == Thread(if t < s.workers then PickLifo(false) else Idle, [], None, 0, 1)
  }

  function Go(s: Pool, t: nat, pc: Pc): Pool
    requires t < |s.threads|
  {
    s.(threads := s.threads[t := s.threads[t].(pc := pc)])
  }

  function Keep(s: Pool, t: nat, th: Thread): Pool
    requires t < |s.threads|
  {
    s.(threads := s.threads[t := th])
  }

  function Done(k: After): Pc
  {
    match k
    case ToIdle => Idle
    case ToRunning => Running
    case ToTask(x) => Got(x)
  }

  // ---- Submit --------------------------------------------------------------------------------

  ghost predicate StartSubmit(s: Pool, t: nat, s': Pool)
    requires t < |s.threads|
  {
    exists x: Task, pc: Pc :: Accepts(s.threads[t].pc, pc, x) && s' == Go(s.(submitted := s.submitted + multiset{x}), t, pc)
  }

  /** Where a thread stands after Submit was called with x, for each hint. */
  predicate Accepts(pc: Pc, pc': Pc, x: Task)
  {
    (pc.Idle? && pc' == Outside(x)) || (pc.Running? && (pc' == Yielding(x) || pc' == Hinted(x) || pc' == Pushing(x)))
  }

  ghost predicate SubmitStep(s: Pool, t: nat, s': Pool)
    requires t < |s.threads|
  {
    var th := s.threads[t];
    match th.pc
    case Outside(x) => s' == Go(s, t, Notify(ToIdle)).(global := s.global + [x])
    case Yielding(x) => s' == Go(s, t, Notify(ToRunning)).(global := s.global + [x])
    case Hinted(x) => s' == Keep(s, t, th.(lifo := Some(x), pc := if th.lifo.None? then Notify(ToRunning) else Pushing(th.lifo.value)))
    case Pushing(x) =>
      if |th.ring| == s.cap then s' == Go(s, t, Offloading(x))
      else s' == Keep(s, t, th.(ring := th.ring + [x], pc := Notify(ToRunning)))
    case Offloading(x) =>
      exists j :: 0 <= j <= |th.ring| && j <= s.cap / 2 && s' == Keep(s, t, Spilled(th, j, x))
    case Spilling(xs) => s' == Go(s, t, Notify(ToRunning)).(global := s.global + xs)
    case _ => false
  }

  /** The first j tasks leave the ring together with x. */
  function Spilled(th: Thread, j: nat, x: Task): Thread
    requires j <= |th.ring|
  {
    th.(ring := th.ring[j..], pc := Spilling(th.ring[..j] + [x]))
  }

  ghost predicate WakeStep(s: Pool, t: nat, s': Pool)
    requires t < |s.threads|
  {
    match s.threads[t].pc
    case Notify(k) => s' == Go(s, t, if s.spinning == 0 then Waking(1, k) else Done(k))
    case Waking(n, k) =>
      if n == 0 then s' == Go(s, t, Done(k))
      else if s.waiters == [] then s' == Go(s, t, Waking(n - 1, k))
      else s' == Go(s, t, Bumping(s.waiters[0], n - 1, k)).(waiters := s.waiters[1..])
    case Bumping(w, n, k) =>
      w < |s.threads| && s' == Bumped(Go(s, t, Unparking(w, n, k)), w)
    case Unparking(w, n, k) =>
      w < |s.threads| && s' == Unparked(Go(s, t, Waking(n, k)), w)
    case _ => false
  }

  function Bumped(s: Pool, w: nat): Pool
    requires w < |s.threads|
  {
    Keep(s, w, s.threads[w].(wakeups := s.threads[w].wakeups + 1))
  }

  /** A worker asleep on the futex is woken, and looks at the word again. */
  function Unparked(s: Pool, w: nat): Pool
    requires w < |s.threads|
  {
    if s.threads[w].pc.Asleep? then Go(s, w, Parking(s.threads[w].pc.seen)) else s
  }

  // ---- PickTask --------------------------------------------------------------------------------

  function FirstPick(iter: nat, again: bool): Pc
  {
    if iter % GLOBAL_EVERY == 0 then PickFirst(again) else PickLifo(again)
  }

  /** The next round of the loop in Work. */
  function Round(s: Pool, t: nat): Pool
    requires t < |s.threads|
  {
    var th := s.threads[t];
    Keep(s, t, th.(iter := th.iter + 1, pc := FirstPick(th.iter + 1, false)))
  }

  ghost predicate PickStep(s: Pool, t: nat, s': Pool)
    requires t < |s.threads|
  {
    var th := s.threads[t];
    match th.pc
    case Got(x) => s' == Go(s, t, Running).(picked := s.picked + multiset{x})
    case Running => s' == Round(s, t)
    case PickFirst(again) => if s.global != [] then s' == PopGlobal(s, t, Got(s.global[0])) else s' == Go(s, t, PickLifo(again))
    case PickLifo(again) =>
      if th.lifo.Some? then s' == Keep(s, t, th.(lifo := None, pc := Got(th.lifo.value))) else s' == Go(s, t, PickLocal(again))
    case PickLocal(again) =>
      if th.ring != [] then s' == Keep(s, t, th.(ring := th.ring[1..], pc := Got(th.ring[0]))) else s' == Go(s, t, PickGlobal(again))
    case PickGlobal(again) =>
      if s.global != [] then s' == PopGlobal(s, t, Got(s.global[0]))
      else if again then s' == Round(s, t)
      else s' == Go(s, t, SpinUp)
    case _ => false
  }

  function PopGlobal(s: Pool, t: nat, pc: Pc): Pool
    requires t < |s.threads| && s.global != []
  {
    Go(s, t, pc).(global := s.global[1..])
  }

  /** A shuffled order of all other workers. */
  predicate IsOrder(s: Pool, t: nat, order: seq<nat>)
  {
    && (forall i :: 0 <= i < |order| ==> order[i] < s.workers && order[i] != t)
    && (forall i, j :: 0 <= i < j < |order| ==> order[i] != order[j])
    && |order| == s.workers - 1
  }

  ghost predicate StealStep(s: Pool, t: nat, s': Pool)
    requires t < |s.threads|
  {
    var th := s.threads[t];
    match th.pc
    case SpinUp => exists order :: IsOrder(s, t, order) && s' == Go(s, t, Stealing(order, None)).(spinning := s.spinning + 1)
    case Stealing(order, park) =>
      if order == [] then
        s' == Go(s, t, if park.None? then ReadWakeups else Parking(park.value))
      else
        || s' == Go(s, t, Stealing(order[1..], park))
        || exists n :: 0 < n <= s.cap / 2 && s' == Go(s, t, Grabbing(n, order, park))
    case Grabbing(n, order, park) =>
      && order != [] && order[0] < |s.threads|
      && (|| s' == Go(s, t, Stealing(order[1..], park))
          || exists j :: 0 < j <= n && j <= |s.threads[order[0]].ring| && s' == Stolen(s, t, order[0], j, park))
    case Stashing(rest, x, park) =>
      if rest == [] then
        s' == Go(s, t, if park.None? then SpinDown(x) else Waking(6, ToTask(x)))
      else if |th.ring| == s.cap then
        s' == Go(s, t, Aborted)
      else
        s' == Keep(s, t, th.(ring := th.ring + [rest[0]], pc := Stashing(rest[1..], x, park)))
    case _ => false
  }

  function Stolen(s: Pool, t: nat, v: nat, j: nat, park: Option<nat>): Pool
    requires t < |s.threads| && v < |s.threads| && 0 < j <= |s.threads[v].ring|
  {
    var xs := s.threads[v].ring[..j];
    var s1 := Go(s, t, Stashing(xs[..j - 1], xs[j - 1], park));
    Keep(s1, v, s1.threads[v].(ring := s1.threads[v].ring[j..]))
  }

  ghost predicate ParkStep(s: Pool, t: nat, s': Pool)
    requires t < |s.threads|
  {
    var th := s.threads[t];
    match th.pc
    case SpinDown(x) => s' == Go(s, t, Waking(3, ToTask(x))).(spinning := s.spinning - 1)
    case ReadWakeups => s' == Go(s, t, PushWaiter(th.wakeups))
    case PushWaiter(seen) => s' == Go(s, t, Unspin(seen)).(waiters := s.waiters + [t])
    case Unspin(seen) => s' == Go(s, t, LastGlobal(seen)).(spinning := s.spinning - 1)
    case LastGlobal(seen) =>
      if s.global != [] then s' == PopGlobal(s, t, Waking(6, ToTask(s.global[0])))
      else exists order :: IsOrder(s, t, order) && s' == Go(s, t, Stealing(order, Some(seen)))
    case Parking(seen) => s' == Go(s, t, if th.wakeups == seen then Asleep(seen) else FirstPick(th.iter, true))
    case Asleep(seen) => s' == Go(s, t, Parking(seen))
    case _ => false
  }

  // ---- the transition system ----------------------------------------------------------------------

  ghost predicate ThreadStep(s: Pool, t: nat, s': Pool)
  {
    t < |s.threads| &&
    (|| StartSubmit(s, t, s') || SubmitStep(s, t, s') || WakeStep(s, t, s')
     || PickStep(s, t, s') || StealStep(s, t, s') || ParkStep(s, t, s'))
  }

  ghost predicate Next(s: Pool, s': Pool)
  {
    exists t :: ThreadStep(s, t, s')
  }

  ghost predicate IsRun(run: seq<Pool>)
  {
    && |run| > 0 && Init(run[0])
    && forall i :: 0 < i < |run| ==> Next(run[i - 1], run[i])
  }
}

/** The inductive invariant of the runtime, and how single moves keep its parts. */
module Invariant {
  import opened Memory
  import opened Machine

  // ---- Placement ----------------------------------------------------------------------------

  /** The queue that links a fiber through `next` and `prev`, by its position in the code. */
  function PlaceOf(ctl: Control): Option<QueueId> {
    match ctl
    case Runnable(_) => Some(ReadyQueue)
    case Locking(m, _) => Some(LockQueue(m))
    case Waiting(c, _, _, _, dropped) => if dropped then None else Some(WaitQueue(c))
    case Polling(fd, dir, _) => Some(FdQueue(fd, dir))
    case _ => None
  }

  /** Whether a fiber is linked in the timer queue, by its position in the code. */
  predicate InTimers(ctl: Control) {
    match ctl
    case Locking(_, how) => how.ByTimedlock?
    case Waiting(_, _, timed, _, _) => timed
    case Polling(_, _, timed) => timed
    case Sleeping => true
    case _ => false
  }

  function CallbackOf(ctl: Control): TimerCallback {
    match ctl
    case Locking(m, _) => TimedlockCallback(m)
    case Waiting(c, _, _, _, _) => TimedwaitCallback(c)
    case Polling(fd, _, _) => WaitforCallback(fd)
    case _ => UsleepCallback
  }

  /** Each queue links exactly the fibers whose place it is, and links each of them once. */
  ghost predicate Places(w: World) {
    && (forall q: QueueId :: Distinct(w.mem.Queue(q)))
    && (forall q: QueueId, f: FiberId :: f in w.mem.Queue(q) <==> PlaceOf(w.Ctl(f)) == Some(q))
  }

  ghost predicate TimersSorted(mem: Mem) {
    forall i, j :: 0 <= i < j < |mem.timerQueue| ==>
      mem.F(mem.timerQueue[i]).timer <= mem.F(mem.timerQueue[j]).timer
  }

  /** Asleep and not signalled, the timer thread wakes no later than the first timer. */
  ghost predicate NoOversleep(mem: Mem) {
    mem.timerThread.Asleep? ==>
      || mem.timerQueue == []
      || (mem.timerThread.deadline.Some? && Instant(mem.timerThread.deadline.value) <= mem.F(mem.timerQueue[0]).timer)
  }

  ghost predicate Timers(w: World) {
    && Distinct(w.mem.timerQueue)
    && (forall f: FiberId :: f in w.mem.timerQueue <==> InTimers(w.Ctl(f)))
    && TimersSorted(w.mem)
    && NoOversleep(w.mem)
  }

  // ---- One fiber ----------------------------------------------------------------------------

  /** A linked fiber has a positive timer exactly if it is in the timer queue, with the callback
      of the call that it is in. */
  ghost predicate TimerFields(w: World, f: FiberId) {
    var ctl := w.Ctl(f);
    && (ctl.Locking? || ctl.Waiting? || ctl.Polling? ==> (w.mem.F(f).timer > 0 <==> InTimers(ctl)))
    && (InTimers(ctl) ==> w.mem.F(f).timerCallback == CallbackOf(ctl))
    && (InTimers(ctl) && ctl != Sleeping ==> !w.mem.F(f).timeout)
  }

  datatype Depth = Zero | One | Positive | AnyDepth

  /** What a position in the code says about a mutex: whether the fiber owns it, and how deep. */
  datatype Claim = NoClaim | Claim(mutex: MutexId, owned: bool, depth: Depth)

  function ClaimOf(ctl: Control): Claim {
    match ctl
    case Locking(m, how) => Claim(m, how.ByTimedlock? && how.owned, AnyDepth)
    case Runnable(FromLock(m)) => Claim(m, true, One)
    case Runnable(FromTimedlock(m, owned, expired)) =>
      if expired then Claim(m, owned, AnyDepth) else Claim(m, true, One)
    case Runnable(FromCond(_, m, _, _)) => Claim(m, true, Positive)
    case Unlocking(m, _) => Claim(m, true, Zero)
    case Waiting(_, m, _, release, _) =>
      match release {
        case Pushed => Claim(m, true, Positive)
        case Parked => Claim(m, false, AnyDepth)
        case _ => Claim(m, true, Zero)
      }
    case _ => NoClaim
  }

  predicate DepthOk(depth: Depth, count: int) {
    match depth
    case Zero => count == 0
    case One => count == 1
    case Positive => count >= 1
    case AnyDepth => true
  }

  ghost predicate ClaimOk(w: World, f: FiberId) {
    match ClaimOf(w.Ctl(f))
    case NoClaim => true
    case Claim(m, owned, depth) =>
      (w.Owns(f, m) <==> owned) && (owned ==> DepthOk(depth, w.mem.M(m).lockCount))
  }

  /** The flags from which a blocked or runnable fiber will compute what its call returns. */
  ghost predicate FlagsOk(w: World, f: FiberId) {
    var fiber := w.mem.F(f);
    match w.Ctl(f)
    case Locking(m, ByCond(_, timed, expired)) => if timed then fiber.timeout == expired else !expired
    case Runnable(FromTimedlock(m, owned, expired)) => fiber.timeout == expired && !(owned && !expired)
    case Runnable(FromCond(_, m, timed, expired)) => if timed then fiber.timeout == expired else !expired
    case Runnable(FromWaitfor(timed, outcome)) =>
      && (if timed then fiber.timeout == (outcome == Expired) else outcome != Expired)
      && (outcome != Expired ==> fiber.ioCanceled == (outcome == Canceled))
    case Polling(_, dir, _) =>
      && !fiber.ioCanceled
      && (if dir.Read? then fiber.waitedEvent.read else !fiber.waitedEvent.read && fiber.waitedEvent.write)
    case _ => true
  }

  /** A waiter has saved the mutex and the depth at which to lock it again; a timeout that is
      still to be stored in a timer is positive there. */
  ghost predicate SavedOk(w: World, f: FiberId) {
    var fiber := w.mem.F(f);
    match w.Ctl(f)
    case Waiting(_, m, _, _, _) =>
      fiber.condMutex == Some(m) && fiber.lockCount >= 1 && (fiber.lockCount > 1 ==> w.mem.M(m).isRecursive)
    case RetryTimedlock(_, t) => 0 < t < TWO_63
    case _ => true
  }

  /** A signaller has counted the waiters that it started with. */
  ghost predicate SignalOk(w: World, f: FiberId) {
    match w.Ctl(f)
    case SignalLoop(c, nb, woken, total) =>
      w.big == Some(f) && woken + |w.mem.C(c)| == total && (nb > 0 ==> woken <= nb)
    case _ => true
  }

  ghost predicate FiberOk(w: World, f: FiberId) {
    && TimerFields(w, f) && ClaimOk(w, f) && FlagsOk(w, f) && SavedOk(w, f) && SignalOk(w, f)
    && (w.Ctl(f).Runnable? ==> w.mem.F(f).waitedEvent == NO_EVENT)
  }

  // ---- One mutex, one descriptor ------------------------------------------------------------

  /** The mutex is free, or owned at a positive depth, or its owner is inside the unlock. */
  ghost predicate MutexOk(w: World, m: MutexId) {
    var mutex := w.mem.M(m);
    && (mutex.owner == None ==> mutex.lockCount == 0 && mutex.lockQueue == [])
    && mutex.lockCount >= 0
    && (mutex.owner.Some? && mutex.lockCount == 0 ==>
          var r := ReleasingMutex(w.Ctl(mutex.owner.value)); r.Some? && r.value.0 == m)
    && (mutex.lockCount > 1 ==> mutex.isRecursive)
  }

  /** A queue with a waiter is armed in epoll, or an event of the descriptor awaits the reactor. */
  ghost predicate NoLostWakeup(mem: Mem, fd: Fd, dir: Direction) {
    mem.D(fd).Queue(dir) != [] ==>
      mem.D(fd).registered && ((mem.D(fd).armed && mem.D(fd).Armed(dir)) || mem.D(fd).pending.Some?)
  }

  ghost predicate Inv(w: World) {
    && Places(w)
    && Timers(w)
    && (forall f: FiberId :: FiberOk(w, f))
    && (forall m: MutexId :: MutexOk(w, m))
    && (forall fd: Fd, dir: Direction :: NoLostWakeup(w.mem, fd, dir))
    && (w.big.Some? ==> w.Ctl(w.big.value).SignalLoop?)
  }

  /** Timeouts are below 2^63, and a descriptor is closed behind the runtime's back only when no
      fiber waits for it. */
  predicate Courteous(w: World, s: Step) {
    match s
    case Timedlock(_, _, t) => t < TWO_63
    case CondTimedwait(_, _, _, t) => t < TWO_63
    case RawClose(fd) => w.mem.D(fd).readQueue == [] && w.mem.D(fd).writeQueue == []
    case _ => true
  }

  lemma QueueParts(w: World)
    requires Inv(w)
    ensures Places(w) && Timers(w)
    ensures w.big.Some? ==> w.Ctl(w.big.value).SignalLoop?
  {
  }

  lemma FiberPart(w: World, f: FiberId)
    requires Inv(w)
    ensures FiberOk(w, f)
  {
  }

  lemma MutexPart(w: World, m: MutexId)
    requires Inv(w)
    ensures MutexOk(w, m)
  {
  }

  lemma FdPart(w: World, fd: Fd)
    requires Inv(w)
    ensures NoLostWakeup(w.mem, fd, Read) && NoLostWakeup(w.mem, fd, Write)
  {
  }

  // ---- What a step leaves alone -------------------------------------------------------------

  /** Nothing that FiberOk says about `x` is affected. */
  ghost predicate Untouched(w: World, w': World, x: FiberId) {
    && (w'.Ctl(x) == w.Ctl(x) || (w.Ctl(x).Waiting? && w'.Ctl(x) == w.Ctl(x).(dropped := true)))
    && w'.mem.F(x) == w.mem.F(x)
    && (match ClaimOf(w.Ctl(x))
        case NoClaim => true
        case Claim(n, _, _) =>
          && (w'.Owns(x, n) <==> w.Owns(x, n))
          && (w.Owns(x, n) ==> w'.mem.M(n).lockCount == w.mem.M(n).lockCount)
          && w'.mem.M(n).isRecursive == w.mem.M(n).isRecursive)
    && (w.Ctl(x).SignalLoop? ==> w'.big == w.big && |w'.mem.C(w.Ctl(x).cond)| == |w.mem.C(w.Ctl(x).cond)|)
  }

  lemma UntouchedOk(w: World, w': World, x: FiberId)
    requires Untouched(w, w', x)
    requires FiberOk(w, x)
    ensures FiberOk(w', x)
  {
  }

  /** The parts of the invariant, put together after a step that moved only `f` and `g`. */
  lemma Assemble(w: World, w': World, f: FiberId, g: FiberId)
    requires Inv(w)
    requires Places(w') && Timers(w')
    requires forall x: FiberId :: x != f && x != g ==> Untouched(w, w', x)
    requires FiberOk(w', f) && FiberOk(w', g)
    requires forall n: MutexId :: MutexOk(w', n)
    requires forall fd: Fd, dir: Direction :: NoLostWakeup(w'.mem, fd, dir)
    requires w'.big == w.big || w'.big == None || w'.big == Some(f)
    requires w'.big == Some(f) ==> w'.Ctl(f).SignalLoop?
    requires w'.big == Some(g) ==> w'.Ctl(g).SignalLoop?
    ensures Inv(w')
  {
    forall x: FiberId ensures FiberOk(w', x) {
      if x != f && x != g {
        assert FiberOk(w, x);
        UntouchedOk(w, w', x);
      }
    }
    if w'.big.Some? {
      var b := w'.big.value;
      assert b != f && b != g ==> Untouched(w, w', b);
    }
  }

  /** All mutexes, after a step that changed only `m` and moved only `f` and `g`, which were not
      releasing any other mutex and so own none at depth zero. */
  lemma MutexesKept(w: World, w': World, m: MutexId, f: FiberId, g: FiberId)
    requires Inv(w)
    requires forall x: FiberId :: x != f && x != g ==> Untouched(w, w', x)
    requires forall n: MutexId :: n != m ==> w'.mem.M(n) == w.mem.M(n)
    requires ReleasingMutex(w.Ctl(f)) == None || ReleasingMutex(w.Ctl(f)).value.0 == m
    requires ReleasingMutex(w.Ctl(g)) == None || ReleasingMutex(w.Ctl(g)).value.0 == m
    requires MutexOk(w', m)
    ensures forall n: MutexId :: MutexOk(w', n)
  {
    hide Inv;
    forall n: MutexId ensures MutexOk(w', n) {
      MutexPart(w, n);
      if n != m && w.mem.M(n).owner.Some? {
        var owner := w.mem.M(n).owner.value;
        assert owner != f && owner != g ==> Untouched(w, w', owner);
      }
    }
  }

  // ---- Moves --------------------------------------------------------------------------------

  function Moved(s: seq<FiberId>, q: QueueId, f: FiberId, from: Option<QueueId>, to: Option<QueueId>): seq<FiberId> {
    if from == to then s
    else if from == Some(q) then Without(s, f)
    else if to == Some(q) then s + [f]
    else s
  }

  /** Unlinking a fiber from its place and appending it to another keeps every queue right. */
  lemma PlacesMove(w: World, w': World, f: FiberId)
    requires Places(w)
    requires forall g: FiberId :: g != f ==> PlaceOf(w'.Ctl(g)) == PlaceOf(w.Ctl(g))
    requires forall q: QueueId :: w'.mem.Queue(q) == Moved(w.mem.Queue(q), q, f, PlaceOf(w.Ctl(f)), PlaceOf(w'.Ctl(f)))
    ensures Places(w')
  {
    forall q: QueueId
      ensures Distinct(w'.mem.Queue(q))
      ensures forall g: FiberId :: g in w'.mem.Queue(q) <==> PlaceOf(w'.Ctl(g)) == Some(q)
    {
      var s := w.mem.Queue(q);
      assert Distinct(s);
      WithoutFacts(s, f);
    }
  }

  /** Nothing about the queues or the positions changes. */
  lemma PlacesSame(w: World, w': World)
    requires Places(w)
    requires w'.control == w.control
    requires forall q: QueueId :: w'.mem.Queue(q) == w.mem.Queue(q)
    ensures Places(w')
  {
    forall q: QueueId
      ensures Distinct(w'.mem.Queue(q))
      ensures forall f: FiberId :: f in w'.mem.Queue(q) <==> PlaceOf(w'.Ctl(f)) == Some(q)
    {
      assert Distinct(w.mem.Queue(q));
      assert forall f: FiberId :: f in w.mem.Queue(q) <==> PlaceOf(w.Ctl(f)) == Some(q);
    }
  }

  /** The first element is the one that Without removes. */
  lemma WithoutHead(s: seq<FiberId>)
    requires s != []
    ensures Without(s, s[0]) == s[1..]
  {
  }

  /** Nothing about the timer queue changes. */
  lemma TimersKept(w: World, w': World)
    requires Timers(w)
    requires w'.mem.timerQueue == w.mem.timerQueue
    requires w'.mem.timerThread == w.mem.timerThread
    requires forall f: FiberId :: InTimers(w'.Ctl(f)) == InTimers(w.Ctl(f))
    requires forall f: FiberId :: f in w.mem.timerQueue ==> w'.mem.F(f).timer == w.mem.F(f).timer
    ensures Timers(w')
  {
  }

  lemma SortedWithout(mem: Mem, mem': Mem, k: nat)
    requires TimersSorted(mem) && k < |mem.timerQueue|
    requires mem'.timerQueue == mem.timerQueue[..k] + mem.timerQueue[k + 1..]
    requires forall i :: 0 <= i < |mem.timerQueue| && i != k ==>
        mem'.F(mem.timerQueue[i]).timer == mem.F(mem.timerQueue[i]).timer
    ensures TimersSorted(mem')
    ensures NoOversleep(mem) && mem'.timerThread == mem.timerThread ==> NoOversleep(mem')
  {
    var q, q' := mem.timerQueue, mem'.timerQueue;
    forall i, j | 0 <= i < j < |q'|
      ensures mem'.F(q'[i]).timer <= mem'.F(q'[j]).timer
    {
      var a := if i < k then i else i + 1;
      var b := if j < k then j else j + 1;
      assert q'[i] == q[a] && q'[j] == q[b];
    }
    if q' != [] {
      var a := if 0 < k then 0 else 1;
      assert q'[0] == q[a];
      assert mem.F(q[0]).timer <= mem.F(q[a]).timer;
    }
  }

  /** A fiber leaves the timer queue; nobody is signalled. */
  lemma TimersRemove(w: World, w': World, f: FiberId)
    requires Timers(w)
    requires f in w.mem.timerQueue && !InTimers(w'.Ctl(f))
    requires w'.mem.timerQueue == Without(w.mem.timerQueue, f)
    requires w'.mem.timerThread == w.mem.timerThread
    requires forall g: FiberId :: g != f ==> InTimers(w'.Ctl(g)) == InTimers(w.Ctl(g))
    requires forall g: FiberId :: g != f && g in w.mem.timerQueue ==> w'.mem.F(g).timer == w.mem.F(g).timer
    ensures Timers(w')
  {
    hide TimersSorted, NoOversleep, Distinct, Without;
    WithoutFacts(w.mem.timerQueue, f);
    OrderAfterRemove(w.mem, w'.mem, f);
  }

  lemma OrderAfterRemove(mem: Mem, mem': Mem, f: FiberId)
    requires Distinct(mem.timerQueue) && TimersSorted(mem) && NoOversleep(mem)
    requires f in mem.timerQueue && mem'.timerQueue == Without(mem.timerQueue, f) && mem'.timerThread == mem.timerThread
    requires forall g: FiberId :: g != f && g in mem.timerQueue ==> mem'.F(g).timer == mem.F(g).timer
    ensures TimersSorted(mem') && NoOversleep(mem')
  {
    var q := mem.timerQueue;
    var k :| 0 <= k < |q| && q[k] == f;
    WithoutAt(q, k);
    forall i | 0 <= i < |q| && i != k ensures mem'.F(q[i]).timer == mem.F(q[i]).timer {
      assert q[i] != f && q[i] in q;
    }
    hide TimersSorted, NoOversleep, Distinct, Without;
    SortedWithout(mem, mem', k);
  }

  lemma SortedInsert(mem: Mem, mem': Mem, p: nat, f: FiberId)
    requires TimersSorted(mem)
    requires forall i :: 0 <= i < |mem.timerQueue| ==> mem'.F(mem.timerQueue[i]).timer == mem.F(mem.timerQueue[i]).timer
    requires p == InsertPos(Keys(mem'.fibers, mem.timerQueue), mem'.F(f).timer)
    requires mem'.timerQueue == InsertAt(mem.timerQueue, p, f)
    requires mem'.timerThread == (if p == 0 then Awake else mem.timerThread)
    ensures TimersSorted(mem')
    ensures NoOversleep(mem) ==> NoOversleep(mem')
  {
    var q, q' := mem.timerQueue, mem'.timerQueue;
    var keys := Keys(mem'.fibers, q);
    forall i, j | 0 <= i < j < |q'|
      ensures mem'.F(q'[i]).timer <= mem'.F(q'[j]).timer
    {
      if i < p && j > p {
        assert keys[i] == mem'.F(q[i]).timer && q'[j] == q[j - 1];
        assert mem.F(q[i]).timer <= mem.F(q[j - 1]).timer;
      } else if i < p && j < p {
        assert mem.F(q[i]).timer <= mem.F(q[j]).timer;
      } else if i < p {
        assert keys[i] == mem'.F(q[i]).timer < mem'.F(f).timer;
      } else if i == p {
        assert keys[p] == mem'.F(q[p]).timer && q'[j] == q[j - 1];
        assert p < j - 1 ==> mem.F(q[p]).timer <= mem.F(q[j - 1]).timer;
      } else {
        assert mem.F(q[i - 1]).timer <= mem.F(q[j - 1]).timer;
      }
    }
  }

  /** A fiber enters the timer queue at its place; the thread is signalled if it is the new head. */
  lemma TimersInsert(w: World, w': World, f: FiberId)
    requires Timers(w)
    requires f !in w.mem.timerQueue && InTimers(w'.Ctl(f))
    requires
      var p := InsertPos(Keys(w'.mem.fibers, w.mem.timerQueue), w'.mem.F(f).timer);
      && w'.mem.timerQueue == InsertAt(w.mem.timerQueue, p, f)
      && w'.mem.timerThread == (if p == 0 then Awake else w.mem.timerThread)
    requires forall g: FiberId :: g != f ==> InTimers(w'.Ctl(g)) == InTimers(w.Ctl(g))
    requires forall g: FiberId :: g != f ==> w'.mem.F(g).timer == w.mem.F(g).timer
    ensures Timers(w')
  {
    hide TimersSorted, NoOversleep, Distinct, InsertPos, InsertAt, Keys;
    var q := w.mem.timerQueue;
    var p := InsertPos(Keys(w'.mem.fibers, q), w'.mem.F(f).timer);
    InsertAtFacts(q, p, f);
    forall i | 0 <= i < |q|
      ensures w'.mem.F(q[i]).timer == w.mem.F(q[i]).timer
    {
      assert q[i] in q;
    }
    SortedInsert(w.mem, w'.mem, p, f);
  }

  lemma FdsKept(w: World, w': World)
    requires Inv(w) && w'.mem.fds == w.mem.fds
    ensures forall fd: Fd, dir: Direction :: NoLostWakeup(w'.mem, fd, dir)
  {
    hide Inv;
    forall fd: Fd, dir: Direction ensures NoLostWakeup(w'.mem, fd, dir) { FdPart(w, fd); }
  }

  lemma SameFiber(w: World, w': World, f: FiberId)
    requires FiberOk(w, f)
    requires w'.control == w.control && w'.mem.fibers == w.mem.fibers && w'.mem.mutexes == w.mem.mutexes
    requires w'.mem.conds == w.mem.conds && w'.big == w.big
    ensures FiberOk(w', f)
  {
    UntouchedOk(w, w', f);
  }

  lemma SameMutex(w: World, w': World, n: MutexId)
    requires MutexOk(w, n) && w'.mem.mutexes == w.mem.mutexes && w'.control == w.control
    ensures MutexOk(w', n)
  {
  }

  /** A step that moves no fiber: it concerns the timer thread or the kernel's side of a descriptor. */
  lemma NobodyMoves(w: World, w': World)
    requires Inv(w)
    requires w' == w.(mem := w.mem.(timerThread := w'.mem.timerThread, fds := w'.mem.fds))
    requires Timers(w')
    requires forall fd: Fd, dir: Direction :: w'.mem.D(fd).Queue(dir) == w.mem.D(fd).Queue(dir)
    requires forall fd: Fd, dir: Direction :: NoLostWakeup(w'.mem, fd, dir)
    ensures Inv(w')
  {
    assert Places(w') by {
      assert forall q: QueueId :: w'.mem.Queue(q) == w.mem.Queue(q);
      PlacesSame(w, w') by { QueueParts(w); }
    }
    hide Places, Timers, FiberOk, MutexOk, NoLostWakeup;
    forall f: FiberId ensures FiberOk(w', f) { SameFiber(w, w', f); }
    forall n: MutexId ensures MutexOk(w', n) { SameMutex(w, w', n); }
  }

  lemma MutexesSame(w: World, w': World, f: FiberId)
    requires Inv(w) && w'.mem.mutexes == w.mem.mutexes
    requires forall x: FiberId :: x != f ==> Untouched(w, w', x)
    requires ReleasingMutex(w.Ctl(f)) == None
    ensures forall n: MutexId :: MutexOk(w', n)
  {
    hide Inv;
    forall n: MutexId ensures MutexOk(w', n) {
      MutexPart(w, n);
      if w.mem.M(n).owner.Some? {
        var owner := w.mem.M(n).owner.value;
        assert owner != f ==> Untouched(w, w', owner);
      }
    }
  }
}

/** The promises of src/mutex.c, src/cond.c, src/timer_manager.c and src/io_manager_epoll.c, as
    properties of every run of the runtime. */
module Theorems {
  import opened Memory
  import opened Machine
  import opened Invariant
  import Safety
  import PreserveMutex
  import PreserveCond
  import PreserveIo
  import PreserveTimer
  import Regions

  // ---- Placement ----------------------------------------------------------------------------

  /** In every reachable world a fiber is linked in at most one queue, at most once; and a linked
      fiber that waits is in the timer queue exactly if its timer is positive. */
  lemma SinglePlacement(ws: seq<World>, steps: seq<Step>, i: nat, p: QueueId, q: QueueId, f: FiberId)
    requires Safety.CourteousRun(ws, steps) && i < |ws|
    requires f in ws[i].mem.Queue(p)
    ensures Distinct(ws[i].mem.Queue(p))
    ensures f in ws[i].mem.Queue(q) ==> p == q
    ensures p != ReadyQueue ==> (f in ws[i].mem.timerQueue <==> ws[i].mem.F(f).timer > 0)
    ensures p == ReadyQueue ==> f !in ws[i].mem.timerQueue
  {
    var w := ws[i];
    assert Places(w) && Timers(w) && FiberOk(w, f) by {
      Safety.RunInv(ws, steps, i);
      QueueParts(w);
      FiberPart(w, f);
    }
    hide Safety.CourteousRun, Distinct;
    assert PlaceOf(w.Ctl(f)) == Some(p);
    assert f in w.mem.timerQueue <==> InTimers(w.Ctl(f));
  }

  /** Every timer that can fire belongs to a fiber that is still linked where its callback unlinks
      it, unless a melon_cond_signalnb dropped it. */
  lemma CallbackFindsItsFiber(ws: seq<World>, steps: seq<Step>, i: nat, f: FiberId)
    requires Safety.CourteousRun(ws, steps) && i < |ws|
    requires f in ws[i].mem.timerQueue
    ensures
      var w := ws[i];
      match w.mem.F(f).timerCallback
      case NoCallback => false
      case UsleepCallback => forall q: QueueId :: f !in w.mem.Queue(q)
      case TimedlockCallback(m) => f in w.mem.M(m).lockQueue
      case TimedwaitCallback(c) => w.Ctl(f).Waiting? && (f in w.mem.C(c) <==> !w.Ctl(f).dropped)
      case WaitforCallback(fd) => f in w.mem.D(fd).Queue(if w.mem.F(f).waitedEvent.read then Read else Write)
  {
    var w := ws[i];
    assert Places(w) && Timers(w) && FiberOk(w, f) by {
      Safety.RunInv(ws, steps, i);
      QueueParts(w);
      FiberPart(w, f);
    }
    hide Safety.CourteousRun;
    assert InTimers(w.Ctl(f));
    match w.Ctl(f)
    case Locking(m, _) => assert f in w.mem.Queue(LockQueue(m));
    case Waiting(c, _, _, _, dropped) => assert f in w.mem.Queue(WaitQueue(c)) <==> !dropped;
    case Polling(fd, dir, _) => assert f in w.mem.Queue(FdQueue(fd, dir));
    case Sleeping =>
  }

  // ---- The mutex ----------------------------------------------------------------------------

  /** A free mutex has count 0 and no waiter; an owned one has a positive count, except while its
      owner is inside melon_mutex_unlock or the release of melon_cond_wait. */
  lemma MutexInvariant(ws: seq<World>, steps: seq<Step>, i: nat, m: MutexId)
    requires Safety.CourteousRun(ws, steps) && i < |ws|
    ensures
      var w := ws[i];
      var mutex := w.mem.M(m);
      && (mutex.owner == None ==> mutex.lockCount == 0 && mutex.lockQueue == [])
      && (mutex.owner.Some? ==>
            (mutex.lockCount == 0 <==>
              exists handing :: ReleasingMutex(w.Ctl(mutex.owner.value)) == Some((m, handing))))
      && (mutex.lockCount > 1 ==> mutex.isRecursive)
  {
    var w := ws[i];
    Safety.RunInv(ws, steps, i);
    MutexPart(w, m);
    if w.mem.M(m).owner.Some? {
      var owner := w.mem.M(m).owner.value;
      FiberPart(w, owner);
      hide Inv, Safety.CourteousRun;
      var r := ReleasingMutex(w.Ctl(owner));
      if r.Some? && r.value.0 == m {
        assert r == Some((m, r.value.1));
      }
    }
  }

  /** `f` asks for `m` in this step. */
  predicate AsksFor(w: World, s: Step, f: FiberId, m: MutexId) {
    || s == Lock(f, m) || s == Trylock(f, m) || (s.Timedlock? && s.f == f && s.m == m)
    || (s == TimedlockSlow(f) && w.Ctl(f).RetryTimedlock? && w.Ctl(f).mutex == m)
  }

  /** No barging: while somebody waits, a fiber that does not own the mutex cannot take it. */
  lemma NoBarging(w: World, f: FiberId, m: MutexId, s: Step, w': World)
    requires Inv(w) && w.mem.M(m).lockQueue != [] && !w.Owns(f, m)
    requires AsksFor(w, s, f, m) && Next(w, s, w')
    ensures w'.mem.M(m).owner == w.mem.M(m).owner
    ensures w'.mem.M(m).lockQueue == w.mem.M(m).lockQueue || w'.mem.M(m).lockQueue == w.mem.M(m).lockQueue + [f]
    ensures w'.Ctl(f) != Running || w'.Ret(f) == RetBusy
  {
    MutexPart(w, m);
    hide Inv;
  }

  /** What one step does to a lock queue: nothing, an arrival at the end, the hand-off to the head,
      or the removal of the fiber whose timer fires. */
  ghost predicate QueueStep(w: World, s: Step, w': World, m: MutexId) {
    var q, q' := w.mem.M(m).lockQueue, w'.mem.M(m).lockQueue;
    || q' == q
    || (exists x: FiberId :: q' == q + [x])
    || (s.UnlockHandoff? && q != [] && q' == q[1..] && w'.mem.M(m).owner == Some(q[0]))
    || (s.Fire? && w.mem.timerQueue != [] && q' == Without(q, w.mem.timerQueue[0]))
  }

  /** Only the owner's own unlock takes a mutex away from it. */
  ghost predicate OwnerStep(w: World, s: Step, w': World, m: MutexId) {
    || w'.mem.M(m).owner == w.mem.M(m).owner
    || w.mem.M(m).owner == None
    || ((s.UnlockFast? || s.UnlockHandoff?) && w.Owns(s.f, m))
  }

  lemma LockingEvolves(w: World, s: Step, w': World, m: MutexId)
    requires Next(w, s, w')
    requires s.Lock? || s.Trylock? || s.Timedlock? || s.TimedlockSlow? || s.Unlock? || s.CondRelease?
    ensures QueueStep(w, s, w', m) && OwnerStep(w, s, w', m)
  {
    if s.TimedlockSlow? {
      TimedlockSlowQueues(w, s.f, w', m);
    } else if s.Lock? || s.Trylock? || s.Timedlock? {
      LockQueues(w, s, w', m);
    } else {
      UnlockQueues(w, s, w', m);
    }
    hide Next;
    var q, q' := w.mem.M(m).lockQueue, w'.mem.M(m).lockQueue;
    assert q' == q || q' == q + [s.f];
  }

  lemma TimedlockSlowQueues(w: World, f: FiberId, w': World, m: MutexId)
    requires Next(w, TimedlockSlow(f), w')
    ensures w'.mem.M(m).lockQueue == w.mem.M(m).lockQueue || w'.mem.M(m).lockQueue == w.mem.M(m).lockQueue + [f]
    ensures w'.mem.M(m).owner == w.mem.M(m).owner || w.mem.M(m).owner == None
  {
    hide Regions.TimerPush;
    assert forall mem: Mem, g: FiberId :: Regions.TimerPush(mem, g).mutexes == mem.mutexes by { TimerPushMutexes(); }
  }

  lemma TimerPushMutexes()
    ensures forall mem: Mem, g: FiberId :: Regions.TimerPush(mem, g).mutexes == mem.mutexes
  {
  }

  lemma LockQueues(w: World, s: Step, w': World, m: MutexId)
    requires Next(w, s, w') && (s.Lock? || s.Trylock? || s.Timedlock?)
    ensures w'.mem.M(m).lockQueue == w.mem.M(m).lockQueue || w'.mem.M(m).lockQueue == w.mem.M(m).lockQueue + [s.f]
    ensures w'.mem.M(m).owner == w.mem.M(m).owner || w.mem.M(m).owner == None
  {
  }

  lemma UnlockQueues(w: World, s: Step, w': World, m: MutexId)
    requires Next(w, s, w') && (s.Unlock? || s.CondRelease?)
    ensures w'.mem.M(m).lockQueue == w.mem.M(m).lockQueue && w'.mem.M(m).owner == w.mem.M(m).owner
  {
  }

  lemma UnlockFastEvolves(w: World, f: FiberId, w': World, m: MutexId)
    requires Inv(w) && Next(w, UnlockFast(f), w')
    ensures QueueStep(w, UnlockFast(f), w', m) && OwnerStep(w, UnlockFast(f), w', m)
  {
    FiberPart(w, f);
    hide Inv;
  }

  lemma HandoffEvolves(w: World, f: FiberId, w': World, m: MutexId)
    requires Inv(w) && Next(w, UnlockHandoff(f), w')
    ensures QueueStep(w, UnlockHandoff(f), w', m) && OwnerStep(w, UnlockHandoff(f), w', m)
  {
    hide Inv, Places, Timers, MutexOk, Untouched;
    var n := ReleasingMutex(w.Ctl(f)).value.0;
    FiberPart(w, f);
    assert w.Owns(f, n);
    MutexPart(w, n);
    var q := w.mem.M(n).lockQueue;
    if q == [] {
      assert w' == DoUnlockFast(w, f);
    } else {
      assert PreserveMutex.HandsTo(w, f, n, q[0], w');
      hide Next, PreserveMutex.HandsTo;
      QueueParts(w);
      PreserveMutex.HandoffHead(w, f, n, q[0]);
      PreserveMutex.HandoffMutex(w, f, n, q[0], w');
      PreserveMutex.HandoffOthers(w, f, n, q[0], w');
    }
  }

  lemma SignalEvolves(w: World, f: FiberId, w': World, m: MutexId)
    requires Inv(w) && Next(w, Step.SignalOne(f), w')
    ensures QueueStep(w, Step.SignalOne(f), w', m) && OwnerStep(w, Step.SignalOne(f), w', m)
  {
    var c := w.Ctl(f).cond;
    var x := w.mem.C(c)[0];
    QueueParts(w);
    PreserveCond.SignalHead(w, f, c, x);
    FiberPart(w, x);
    PreserveCond.SignalOneMemory(w, f, c, x, w');
    hide Inv, Places, Timers, FiberOk, Next;
    var q, q' := w.mem.M(m).lockQueue, w'.mem.M(m).lockQueue;
    assert q' == q || q' == q + [x];
  }

  lemma FireEvolves(w: World, now: int, w': World, m: MutexId)
    requires Inv(w) && Next(w, Fire(now), w')
    ensures QueueStep(w, Fire(now), w', m) && OwnerStep(w, Fire(now), w', m)
  {
    var f := w.mem.timerQueue[0];
    assert f in w.mem.timerQueue;
    QueueParts(w);
    FiberPart(w, f);
    assert PreserveTimer.Fires(w, f, w');
    PreserveTimer.FireMutexes(w, f, w');
    hide Inv, Places, Timers, FiberOk, Next;
    var q, q' := w.mem.M(m).lockQueue, w'.mem.M(m).lockQueue;
    assert q' == q || q' == q + [f] || q' == Without(q, f);
  }

  lemma OthersLeaveMutexes(w: World, s: Step, w': World)
    requires Next(w, s, w')
    requires !Safety.MutexStep(s) || s.Spawn? || s.Dispatch?
    requires !s.CondRelease? && !s.SignalOne? && !s.Fire?
    ensures w'.mem.mutexes == w.mem.mutexes
  {
    match s
    case Close(_, fd, _) =>
      PreserveIo.FlushBothLeavesMutexes(w, fd, true, FlushBoth(w, fd, true).value);
    case Cancelio(_, fd) => PreserveIo.FlushBothLeavesMutexes(w, fd, true, w');
    case Handle(fd) => PreserveIo.HandleLeavesMutexes(w, fd, w');
    case _ =>
  }

  lemma MutexEvolves(w: World, s: Step, w': World, m: MutexId)
    requires Inv(w) && Next(w, s, w')
    ensures QueueStep(w, s, w', m) && OwnerStep(w, s, w', m)
  {
    hide Inv, Next;
    if s.Lock? || s.Trylock? || s.Timedlock? || s.TimedlockSlow? || s.Unlock? || s.CondRelease? {
      LockingEvolves(w, s, w', m);
    } else if s.UnlockFast? {
      UnlockFastEvolves(w, s.f, w', m);
    } else if s.UnlockHandoff? {
      HandoffEvolves(w, s.f, w', m);
    } else if s.SignalOne? {
      SignalEvolves(w, s.f, w', m);
    } else if s.Fire? {
      FireEvolves(w, s.now, w', m);
    } else {
      OthersLeaveMutexes(w, s, w');
    }
  }

  // ---- Waiters get the mutex in the order of their arrival -----------------------------------

  /** `a` stands before `b`. */
  ghost predicate Before(q: seq<FiberId>, a: FiberId, b: FiberId) {
    exists i, j :: 0 <= i < j < |q| && q[i] == a && q[j] == b
  }

  lemma {:induction false} BeforeWithout(q: seq<FiberId>, a: FiberId, b: FiberId, x: FiberId)
    requires Before(q, a, b) && x != a && x != b
    ensures Before(Without(q, x), a, b)
  {
    var i, j :| 0 <= i < j < |q| && q[i] == a && q[j] == b;
    if q[0] == x {
      assert q[1..][i - 1] == a && q[1..][j - 1] == b;
    } else if i == 0 {
      var r := Without(q[1..], x);
      InWithout(q[1..], b, x, j - 1);
      var k :| 0 <= k < |r| && r[k] == b;
      assert Without(q, x)[0] == a && Without(q, x)[k + 1] == b;
    } else {
      assert q[1..][i - 1] == a && q[1..][j - 1] == b;
      BeforeWithout(q[1..], a, b, x);
      var r := Without(q[1..], x);
      var k, l :| 0 <= k < l < |r| && r[k] == a && r[l] == b;
      assert Without(q, x)[k + 1] == a && Without(q, x)[l + 1] == b;
    }
  }

  lemma {:induction false} InWithout(q: seq<FiberId>, b: FiberId, x: FiberId, j: nat)
    requires j < |q| && q[j] == b && x != b
    ensures b in Without(q, x)
  {
    if q[0] == x {
      assert q[1..][j - 1] == b;
    } else if j > 0 {
      InWithout(q[1..], b, x, j - 1);
    }
  }

  lemma DistinctLockQueue(w: World, m: MutexId)
    requires Inv(w)
    ensures Distinct(w.mem.M(m).lockQueue)
  {
    hide Inv, Distinct;
    QueueParts(w);
    assert Distinct(w.mem.Queue(LockQueue(m)));
  }

  /** While both wait, their order does not change. */
  lemma OrderKept(w: World, s: Step, w': World, m: MutexId, a: FiberId, b: FiberId)
    requires Inv(w) && Next(w, s, w')
    requires Before(w.mem.M(m).lockQueue, a, b)
    requires a in w'.mem.M(m).lockQueue && b in w'.mem.M(m).lockQueue
    ensures Before(w'.mem.M(m).lockQueue, a, b)
  {
    hide Inv, Next, OwnerStep;
    MutexEvolves(w, s, w', m);
    DistinctLockQueue(w, m);
    var q, q' := w.mem.M(m).lockQueue, w'.mem.M(m).lockQueue;
    var i, j :| 0 <= i < j < |q| && q[i] == a && q[j] == b;
    if q' == q {
    } else if x: FiberId :| q' == q + [x] {
      assert q'[i] == a && q'[j] == b;
    } else if q != [] && q' == q[1..] {
      assert q == [q[0]] + q[1..];
      if i == 0 {
        assert false;
      } else {
        assert q'[i - 1] == a && q'[j - 1] == b;
      }
    } else {
      var x := w.mem.timerQueue[0];
      WithoutFacts(q, x);
      BeforeWithout(q, a, b, x);
    }
  }

  /** How a fiber can leave a lock queue: it is handed the mutex, or its timer fires. */
  ghost predicate LeavesQueue(ws: seq<World>, steps: seq<Step>, k: nat, m: MutexId, a: FiberId)
    requires k < |steps| && |ws| == |steps| + 1
  {
    && a in ws[k].mem.M(m).lockQueue && a !in ws[k + 1].mem.M(m).lockQueue
    && (ws[k + 1].Owns(a, m) || (steps[k].Fire? && ws[k].mem.timerQueue != [] && ws[k].mem.timerQueue[0] == a))
  }

  lemma LeavingIsGrantOrExpiry(w: World, s: Step, w': World, m: MutexId, a: FiberId)
    requires Inv(w) && Next(w, s, w')
    requires a in w.mem.M(m).lockQueue && a !in w'.mem.M(m).lockQueue
    ensures w'.Owns(a, m) || (s.Fire? && w.mem.timerQueue != [] && w.mem.timerQueue[0] == a)
  {
    hide Inv, Next, OwnerStep;
    MutexEvolves(w, s, w', m);
    DistinctLockQueue(w, m);
    var q := w.mem.M(m).lockQueue;
    if s.Fire? && w.mem.timerQueue != [] {
      WithoutFacts(q, w.mem.timerQueue[0]);
    }
    assert q != [] ==> q == [q[0]] + q[1..];
  }

  /** First come, first served: if `a` stands before `b` in a lock queue at world `i`, and `b` is
      still waiting at world `j` and is handed the mutex by the next step, then `a` has left the
      queue in between, as owner or because its own timer fired. */
  lemma {:induction false} FirstComeFirstServed(
    ws: seq<World>, steps: seq<Step>, m: MutexId, i: nat, j: nat, a: FiberId, b: FiberId)
    requires Safety.CourteousRun(ws, steps) && i <= j < |steps|
    requires Before(ws[i].mem.M(m).lockQueue, a, b)
    requires forall k :: i <= k <= j ==> b in ws[k].mem.M(m).lockQueue
    requires b !in ws[j + 1].mem.M(m).lockQueue && ws[j + 1].Owns(b, m) && !ws[j].Owns(b, m)
    ensures exists k :: i <= k < j && LeavesQueue(ws, steps, k, m, a)
    decreases j - i
  {
    assert Inv(ws[i]) && Next(ws[i], steps[i], ws[i + 1]) by {
      Safety.RunInv(ws, steps, i);
    }
    assert Distinct(ws[i].mem.Queue(LockQueue(m)));
    if i == j {
      HeadIsServed(ws[i], steps[i], ws[i + 1], m, b);
      assert false;
    } else if a in ws[i + 1].mem.M(m).lockQueue {
      OrderKept(ws[i], steps[i], ws[i + 1], m, a, b);
      FirstComeFirstServed(ws, steps, m, i + 1, j, a, b);
    } else {
      LeavingIsGrantOrExpiry(ws[i], steps[i], ws[i + 1], m, a);
      assert LeavesQueue(ws, steps, i, m, a);
    }
  }

  /** A waiter that becomes owner was the head of the queue. */
  lemma HeadIsServed(w: World, s: Step, w': World, m: MutexId, b: FiberId)
    requires Inv(w) && Next(w, s, w')
    requires b in w.mem.M(m).lockQueue && b !in w'.mem.M(m).lockQueue
    requires w'.Owns(b, m) && !w.Owns(b, m)
    ensures w.mem.M(m).lockQueue[0] == b
  {
    MutexEvolves(w, s, w', m);
    MutexPart(w, m);
    hide Inv, Next;
  }
}

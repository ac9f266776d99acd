/** What blocking calls return, and what that says about who owns the mutex. */
module Outcomes {
  import opened Memory
  import opened Machine
  import opened Invariant
  import Regions
  import PreserveMutex
  import PreserveCond
  import PreserveIo
  import PreserveTimer
  import Safety

  // ---- Whose position a step changes --------------------------------------------------------

  /** The reactor and melon_close move only fibers that wait for a descriptor, to the ready list. */
  ghost predicate MovesOnlyPolling(w: World, w': World) {
    forall x: FiberId ::
      || w'.Ctl(x) == w.Ctl(x)
      || (w.Ctl(x).Polling? && w'.Ctl(x).Runnable? && w'.Ctl(x).from.FromWaitfor?)
  }

  lemma PopMovesPolling(w: World, fd: Fd, dir: Direction, cancel: bool, w': World)
    requires Inv(w) && PopOne(w, fd, dir, cancel) == Ok(w')
    ensures MovesOnlyPolling(w, w')
  {
    var q := w.mem.D(fd).Queue(dir);
    if q != [] {
      QueueParts(w);
      PreserveIo.PopHead(w, fd, dir, q[0]);
      FiberPart(w, q[0]);
      PreserveIo.PopControl(w, fd, dir, cancel, q[0], w');
      hide Inv, Places, Timers, FiberOk, PopOne;
    }
  }

  lemma {:induction false} FlushMovesPolling(w: World, fd: Fd, dir: Direction, cancel: bool, w': World)
    requires Inv(w) && FlushOne(w, fd, dir, cancel) == Ok(w')
    ensures MovesOnlyPolling(w, w')
    decreases |w.mem.D(fd).Queue(dir)|
  {
    hide Inv;
    if w.mem.D(fd).Queue(dir) != [] {
      var w1 := PopOne(w, fd, dir, cancel).value;
      PopMovesPolling(w, fd, dir, cancel, w1);
      PreserveIo.PopKeeps(w, fd, dir, cancel, w1);
      hide PopOne;
      FlushMovesPolling(w1, fd, dir, cancel, w');
      PollingStays(w, w1, w');
    }
  }

  lemma PollingStays(w: World, w1: World, w': World)
    requires MovesOnlyPolling(w, w1) && MovesOnlyPolling(w1, w')
    ensures MovesOnlyPolling(w, w')
  {
  }

  lemma FlushBothMovesPolling(w: World, fd: Fd, cancel: bool, w': World)
    requires Inv(w) && FlushBoth(w, fd, cancel) == Ok(w')
    ensures MovesOnlyPolling(w, w')
  {
    hide Inv, FlushOne, MovesOnlyPolling;
    var w1 := FlushOne(w, fd, Read, cancel).value;
    FlushMovesPolling(w, fd, Read, cancel, w1);
    PreserveIo.FlushKeeps(w, fd, Read, cancel, w1);
    FlushMovesPolling(w1, fd, Write, cancel, w');
    PollingStays(w, w1, w');
  }

  lemma HandleMovesPolling(w: World, fd: Fd, w': World)
    requires Inv(w) && w.mem.D(fd).pending.Some? && DoHandle(w, fd) == Ok(w')
    ensures MovesOnlyPolling(w, w')
  {
    hide Inv, FlushBoth, PopOne;
    var event := w.mem.D(fd).pending.value;
    var w1 := if event.hup then FlushBoth(w, fd, false).value else w;
    if event.hup { FlushBothMovesPolling(w, fd, false, w1); PreserveIo.FlushBothKeeps(w, fd, false, w1); }
    var w2 := if event.readable then PopOne(w1, fd, Read, false).value else w1;
    if event.readable { PopMovesPolling(w1, fd, Read, false, w2); PreserveIo.PopKeeps(w1, fd, Read, false, w2); }
    var w3 := if event.writable then PopOne(w2, fd, Write, false).value else w2;
    if event.writable { PopMovesPolling(w2, fd, Write, false, w3); }
    PollingStays(w, w1, w2);
    PollingStays(w, w2, w3);
  }

  /** A fiber in a lock queue is moved only by a hand-off to the head, or by its own timer. */
  lemma LockWaiterMoves(w: World, s: Step, w': World, x: FiberId)
    requires Inv(w) && Next(w, s, w') && w.Ctl(x).Locking?
    ensures
      var m := w.Ctl(x).mutex;
      || w'.Ctl(x) == w.Ctl(x)
      || (s.UnlockHandoff? && w.mem.M(m).lockQueue != [] && w.mem.M(m).lockQueue[0] == x
          && w'.Ctl(x) == Granted(w.Ctl(x)) && w'.Owns(x, m) && w'.mem.M(m).lockCount == 1)
      || (s.Fire? && w.mem.timerQueue != [] && w.mem.timerQueue[0] == x && w'.Ctl(x) == Fired(w.mem, w.Ctl(x)))
  {
    hide Inv, Next;
    if s.UnlockHandoff? {
      LockWaiterHandoff(w, s.f, w', x);
    } else if s.Fire? {
      LockWaiterFire(w, s.now, w', x);
    } else if s.Handle? || s.Close? || s.Cancelio? {
      IoMovesPolling(w, s, w');
    } else if s.SignalOne? {
      LockWaiterSignal(w, s.f, w', x);
    } else {
      QuietForLockWaiters(w, s, w', x);
    }
  }

  lemma IoMovesPolling(w: World, s: Step, w': World)
    requires Inv(w) && Next(w, s, w') && (s.Handle? || s.Close? || s.Cancelio?)
    ensures MovesOnlyPolling(w, w')
  {
    hide Inv, MovesOnlyPolling;
    match s
    case Close(_, fd, _) =>
      var w1 := FlushBoth(w, fd, true).value;
      FlushBothMovesPolling(w, fd, true, w1);
      SamePositions(w, w1, w');
    case Cancelio(_, fd) => FlushBothMovesPolling(w, fd, true, w');
    case Handle(fd) => HandleMovesPolling(w, fd, w');
  }

  lemma SamePositions(w: World, w1: World, w': World)
    requires MovesOnlyPolling(w, w1) && w'.control == w1.control
    ensures MovesOnlyPolling(w, w')
  {
  }

  lemma LockWaiterHandoff(w: World, f: FiberId, w': World, x: FiberId)
    requires Inv(w) && Next(w, UnlockHandoff(f), w') && w.Ctl(x).Locking?
    ensures
      var m := w.Ctl(x).mutex;
      || w'.Ctl(x) == w.Ctl(x)
      || (w.mem.M(m).lockQueue != [] && w.mem.M(m).lockQueue[0] == x
          && w'.Ctl(x) == Granted(w.Ctl(x)) && w'.Owns(x, m) && w'.mem.M(m).lockCount == 1)
  {
    var n := ReleasingMutex(w.Ctl(f)).value.0;
    FiberPart(w, f);
    MutexPart(w, n);
    var q := w.mem.M(n).lockQueue;
    if q != [] {
      QueueParts(w);
      PreserveMutex.HandoffHead(w, f, n, q[0]);
      PreserveMutex.HandoffMutex(w, f, n, q[0], w');
      hide Inv, Places, Timers, FiberOk, MutexOk;
    } else {
      hide Inv;
    }
  }

  lemma LockWaiterFire(w: World, now: int, w': World, x: FiberId)
    requires Inv(w) && Next(w, Fire(now), w')
    ensures w.mem.timerQueue != []
    ensures w'.Ctl(x) == w.Ctl(x) || (w.mem.timerQueue[0] == x && w'.Ctl(x) == Fired(w.mem, w.Ctl(x)))
  {
    hide Inv;
  }

  lemma LockWaiterSignal(w: World, f: FiberId, w': World, x: FiberId)
    requires Inv(w) && Next(w, Step.SignalOne(f), w') && w.Ctl(x).Locking?
    ensures w'.Ctl(x) == w.Ctl(x)
  {
    var c := w.Ctl(f).cond;
    QueueParts(w);
    PreserveCond.SignalHead(w, f, c, w.mem.C(c)[0]);
    hide Inv, Places, Timers;
  }

  lemma QuietForLockWaiters(w: World, s: Step, w': World, x: FiberId)
    requires Inv(w) && Next(w, s, w') && w.Ctl(x).Locking?
    requires !s.UnlockHandoff? && !s.Fire? && !s.Handle? && !s.Close? && !s.Cancelio? && !s.SignalOne?
    ensures w'.Ctl(x) == w.Ctl(x)
  {
    if s.Dispatch? {
      QueueParts(w);
      PreserveMutex.DispatchQueues(w, w');
      hide Inv, Places, Timers;
    } else {
      hide Inv;
    }
  }

  lemma QueueMembership(w: World, x: FiberId, q: QueueId)
    requires Inv(w)
    ensures x in w.mem.Queue(q) <==> PlaceOf(w.Ctl(x)) == Some(q)
    ensures x in w.mem.timerQueue <==> InTimers(w.Ctl(x))
  {
  }

  // ---- melon_mutex_timedlock ----------------------------------------------------------------

  /** A timed waiter leaves the lock queue and the timer queue in one step, and only once: either it
      is handed the mutex, or its timer callback removes it and the mutex stays as it was. */
  lemma TimedWaiterLeavesOnce(w: World, s: Step, w': World, x: FiberId)
    requires Inv(w) && Inv(w') && Next(w, s, w')
    requires w.Ctl(x).Locking? && w.Ctl(x).how.ByTimedlock? && w'.Ctl(x) != w.Ctl(x)
    ensures
      var m, owned := w.Ctl(x).mutex, w.Ctl(x).how.owned;
      var expired := s.Fire?;
      && w'.Ctl(x) == Runnable(FromTimedlock(m, owned, expired))
      && x in w.mem.M(m).lockQueue && x in w.mem.timerQueue
      && x !in w'.mem.M(m).lockQueue && x !in w'.mem.timerQueue
      && (w'.Owns(x, m) <==> !expired || owned)
  {
    LockWaiterMoves(w, s, w', x);
    QueueMembership(w, x, LockQueue(w.Ctl(x).mutex));
    QueueMembership(w', x, LockQueue(w.Ctl(x).mutex));
    FiberPart(w', x);
    hide Inv, Next;
  }

  /** The dispatched fiber is out of every queue, and its call returns what its flags say. */
  lemma DispatchFacts(w: World, w': World, f: FiberId)
    requires Inv(w) && Next(w, Dispatch, w') && f == w.mem.ready[0]
    ensures w.Ctl(f).Runnable? && w'.Ctl(f) == Running
    ensures w'.Ret(f) == ReturnValue(w.mem, f, w.Ctl(f).from)
    ensures forall q: QueueId :: f !in w'.mem.Queue(q)
    ensures f !in w'.mem.timerQueue && w'.mem.F(f).waitedEvent == NO_EVENT
    ensures w'.mem.mutexes == w.mem.mutexes && w'.mem.conds == w.mem.conds && FiberOk(w, f)
  {
    QueueParts(w);
    PreserveMutex.DispatchQueues(w, w');
    FiberPart(w, f);
    hide Inv, FiberOk;
    assert w'.Ctl(f) == Running;
    forall q: QueueId ensures f !in w'.mem.Queue(q) { assert PlaceOf(w'.Ctl(f)) == None; }
  }

  /** melon_mutex_timedlock returns 0 exactly if the fiber was handed the mutex, and -ETIMEDOUT
      exactly if the timer removed it.  The result tells who owns the mutex unless the caller
      already owned it: a non-recursive mutex that is locked again times out while owned. */
  lemma TimedlockReturns(w: World, w': World, f: FiberId, m: MutexId, owned: bool, expired: bool)
    requires Inv(w) && Next(w, Dispatch, w') && f == w.mem.ready[0]
    requires w.Ctl(f) == Runnable(FromTimedlock(m, owned, expired))
    ensures w'.Ret(f) == (if expired then RetTimedOut else RetOk)
    ensures w'.Ret(f) == RetOk ==> w'.Owns(f, m) && w'.mem.M(m).lockCount == 1
    ensures (w'.Ret(f) == RetOk <==> w'.Owns(f, m)) <==> !owned
    ensures f !in w'.mem.timerQueue && forall q: QueueId :: f !in w'.mem.Queue(q)
  {
    DispatchFacts(w, w', f);
    hide Inv, Next;
  }

  /** `owned` is what the caller could have seen when it was queued. */
  lemma TimedlockRecordsOwner(w: World, f: FiberId, w': World)
    requires Inv(w) && Next(w, TimedlockSlow(f), w') && w'.Ctl(f) != Running
    ensures
      var m := w.Ctl(f).mutex;
      && w'.Ctl(f) == Locking(m, ByTimedlock(w.Owns(f, m)))
      && w'.mem.M(m).lockQueue == w.mem.M(m).lockQueue + [f] && f in w'.mem.timerQueue
  {
    hide Inv;
    var p := InsertPos(Keys(w'.mem.fibers, w.mem.timerQueue), w'.mem.F(f).timer);
    assert w'.mem.timerQueue == InsertAt(w.mem.timerQueue, p, f);
    assert w'.mem.timerQueue[p] == f;
  }

  /** The stored timer is positive, so that a waker will remove it, exactly for timeouts below 2^63. */
  lemma TimeoutWidth(w: World, f: FiberId, w': World)
    requires Next(w, TimedlockSlow(f), w') && w'.Ctl(f) != Running && 0 < w.Ctl(f).timeout < TWO_64
    ensures w'.mem.F(f).timer > 0 <==> w.Ctl(f).timeout < TWO_63
    ensures f in w'.mem.timerQueue
  {
    hide Regions.TimedlockSlow;
    SlowMemory(w.mem, f, w.Ctl(f).mutex, ToInt64(w.Ctl(f).timeout));
  }

  lemma SlowMemory(mem: Mem, f: FiberId, m: MutexId, timer: int)
    ensures
      var (mem', queued) := Regions.TimedlockSlow(mem, f, m, timer);
      queued ==> mem'.F(f).timer == timer && f in mem'.timerQueue
  {
    var mem1 := Regions.PushWaiter(mem, m, f);
    var mem2 := mem1.SetF(f, mem1.F(f).(timer := timer, timerCallback := TimedlockCallback(m), timeout := false));
    var p := InsertPos(mem2.TimerKeys(), timer);
    assert InsertAt(mem.timerQueue, p, f)[p] == f;
  }

  /** An unlock whose last waiter has expired in the window leaves the mutex free. */
  lemma HandoffToNobodyFrees(w: World, f: FiberId, w': World)
    requires Inv(w) && Next(w, UnlockHandoff(f), w')
    requires w.mem.M(ReleasingMutex(w.Ctl(f)).value.0).lockQueue == []
    ensures
      var m := ReleasingMutex(w.Ctl(f)).value.0;
      w'.mem.M(m).owner == None && w'.mem.M(m).lockCount == 0
  {
    FiberPart(w, f);
    hide Inv;
  }

  /** melon_mutex_lock returns to an owner. */
  lemma LockReturns(w: World, w': World, f: FiberId, m: MutexId)
    requires Inv(w) && Next(w, Dispatch, w') && f == w.mem.ready[0] && w.Ctl(f) == Runnable(FromLock(m))
    ensures w'.Owns(f, m) && w'.mem.M(m).lockCount == 1 && w'.Ret(f) == RetOk
  {
    DispatchFacts(w, w', f);
    hide Inv, Next;
  }

  // ---- melon_cond_wait, melon_cond_timedwait ------------------------------------------------

  /** A wait returns only to the owner of the mutex, out of every queue, and -ETIMEDOUT exactly if
      the timer callback and not a signaller took it off the condition. */
  lemma CondWaitReturns(w: World, w': World, f: FiberId, c: CondId, m: MutexId, timed: bool, expired: bool)
    requires Inv(w) && Next(w, Dispatch, w') && f == w.mem.ready[0]
    requires w.Ctl(f) == Runnable(FromCond(c, m, timed, expired))
    ensures w'.Owns(f, m) && w'.mem.M(m).lockCount >= 1
    ensures w'.Ret(f) == (if expired then RetTimedOut else RetOk)
    ensures expired ==> timed
    ensures f !in w'.mem.timerQueue && forall q: QueueId :: f !in w'.mem.Queue(q)
  {
    DispatchFacts(w, w', f);
    hide Inv, Next;
  }

  /** A waiter leaves its condition's queue by a signal or by its timer, in one step with the timer
      queue; it then owns the mutex or stands at the end of its lock queue. */
  ghost predicate LeftCondition(w: World, s: Step, w': World, x: FiberId)
    requires w.Ctl(x).Waiting?
  {
    var Waiting(c, m, timed, _, _) := w.Ctl(x);
    && x !in w'.mem.C(c) && x !in w'.mem.timerQueue
    && (w'.Ctl(x) == Runnable(FromCond(c, m, timed, s.Fire?)) || w'.Ctl(x) == Locking(m, ByCond(c, timed, s.Fire?)))
    && (w'.Ctl(x).Runnable? ==>
          w.mem.M(m).owner == None && w'.Owns(x, m) && w'.mem.M(m).lockCount == w.mem.F(x).lockCount)
    && (w'.Ctl(x).Locking? ==>
          w.mem.M(m).owner.Some? && w'.mem.M(m).lockQueue == w.mem.M(m).lockQueue + [x])
  }

  lemma SignalledStarts(w: World, f: FiberId, w': World, x: FiberId)
    requires Inv(w) && Next(w, Step.SignalOne(f), w') && x == w.mem.C(w.Ctl(f).cond)[0]
    ensures w.Ctl(f).SignalLoop?
    ensures
      var c := w.Ctl(f).cond;
      && PreserveCond.Signals(w, f, c, x, w') && PreserveCond.WaitsAt(w, f, c, x)
      && w.Ctl(x).Waiting? && w.Ctl(x).cond == c && w.mem.F(x).condMutex == Some(w.Ctl(x).mutex)
  {
    hide Inv, Places, Timers, DoSignalOne;
    QueueParts(w);
    PreserveCond.SignalHead(w, f, w.Ctl(f).cond, x);
    FiberPart(w, x);
  }

  lemma SignalledWaiter(w: World, f: FiberId, w': World, x: FiberId)
    requires Inv(w) && Inv(w') && Next(w, Step.SignalOne(f), w') && x == w.mem.C(w.Ctl(f).cond)[0]
    ensures w.Ctl(x).Waiting? && LeftCondition(w, Step.SignalOne(f), w', x)
  {
    hide Inv, Next, FiberOk, PreserveCond.Signals, PreserveCond.WaitsAt;
    SignalledStarts(w, f, w', x);
    var c := w.Ctl(f).cond;
    PreserveCond.SignalOneMemory(w, f, c, x, w');
    PreserveCond.SignalOneControl(w, f, c, x, w');
    QueueMembership(w', x, WaitQueue(c));
  }

  lemma ExpiredWaiter(w: World, now: int, w': World, x: FiberId)
    requires Inv(w) && Inv(w') && Next(w, Fire(now), w') && x == w.mem.timerQueue[0] && w.Ctl(x).Waiting?
    ensures LeftCondition(w, Fire(now), w', x)
  {
    QueueParts(w);
    FiberPart(w, x);
    assert x in w.mem.timerQueue;
    assert PreserveTimer.Fires(w, x, w');
    PreserveTimer.FireControl(w, x, w');
    PreserveTimer.FireMutexes(w, x, w');
    hide Inv, Places, Timers, Next, FiberOk, PreserveTimer.Fires;
    QueueMembership(w', x, WaitQueue(w.Ctl(x).cond));
  }

  /** A waiter on a condition moves by its own unlock, by a signal, by its timer, or by being
      dropped at the end of a melon_cond_signalnb. */
  lemma CondWaiterMoves(w: World, s: Step, w': World, x: FiberId)
    requires Inv(w) && Inv(w') && Next(w, s, w') && w.Ctl(x).Waiting?
    ensures
      || w'.Ctl(x) == w.Ctl(x)
      || ((s.CondRelease? || s.UnlockFast? || s.UnlockHandoff?) && s.f == x
          && w'.Ctl(x) == w.Ctl(x).(release := w'.Ctl(x).release))
      || (s.SignalEnd? && x in w.mem.C(w.Ctl(s.f).cond) && w'.Ctl(x) == w.Ctl(x).(dropped := true))
      || ((s.SignalOne? || s.Fire?) && LeftCondition(w, s, w', x))
  {
    assert s.SignalOne? ==> w.Ctl(s.f).SignalLoop? && w.mem.C(w.Ctl(s.f).cond) != [];
    hide Inv, Next, LeftCondition;
    if s.SignalOne? {
      if x == w.mem.C(w.Ctl(s.f).cond)[0] {
        SignalledWaiter(w, s.f, w', x);
      } else {
        UnsignalledWaiter(w, s.f, w', x);
      }
    } else if s.Fire? {
      LockWaiterFire(w, s.now, w', x);
      if x == w.mem.timerQueue[0] {
        ExpiredWaiter(w, s.now, w', x);
      }
    } else if s.Handle? || s.Close? || s.Cancelio? {
      IoMovesPolling(w, s, w');
    } else {
      QuietForCondWaiters(w, s, w', x);
    }
  }

  lemma UnsignalledWaiter(w: World, f: FiberId, w': World, x: FiberId)
    requires Inv(w) && Next(w, Step.SignalOne(f), w') && w.Ctl(x).Waiting? && x != w.mem.C(w.Ctl(f).cond)[0]
    ensures w'.Ctl(x) == w.Ctl(x)
  {
    hide Inv;
  }

  lemma HandoffForCondWaiters(w: World, f: FiberId, w': World, x: FiberId)
    requires Inv(w) && Next(w, UnlockHandoff(f), w') && w.Ctl(x).Waiting?
    ensures w'.Ctl(x) == w.Ctl(x) || (f == x && w'.Ctl(x) == w.Ctl(x).(release := w'.Ctl(x).release))
  {
    hide Inv, Places, Timers;
    var m := ReleasingMutex(w.Ctl(f)).value.0;
    if w.mem.M(m).lockQueue != [] {
      QueueParts(w);
      PreserveMutex.HandoffHead(w, f, m, w.mem.M(m).lockQueue[0]);
    }
  }

  lemma QuietForCondWaiters(w: World, s: Step, w': World, x: FiberId)
    requires Inv(w) && Next(w, s, w') && w.Ctl(x).Waiting?
    requires !s.Fire? && !s.Handle? && !s.Close? && !s.Cancelio? && !s.SignalOne?
    ensures
      || w'.Ctl(x) == w.Ctl(x)
      || ((s.CondRelease? || s.UnlockFast? || s.UnlockHandoff?) && s.f == x
          && w'.Ctl(x) == w.Ctl(x).(release := w'.Ctl(x).release))
      || (s.SignalEnd? && x in w.mem.C(w.Ctl(s.f).cond) && w'.Ctl(x) == w.Ctl(x).(dropped := true))
  {
    hide Inv, Places, Timers;
    if s.Dispatch? {
      QueueParts(w);
      PreserveMutex.DispatchQueues(w, w');
    } else if s.UnlockHandoff? {
      hide Next;
      HandoffForCondWaiters(w, s.f, w', x);
    }
  }

  /** A hand-off always gives depth 1, so the depth that the wait saved comes back exactly if it
      was 1.  (A waiter that finds the mutex free gets its saved depth: see LeftCondition.) */
  lemma HandoffDepth(w: World, s: Step, w': World, x: FiberId)
    requires Inv(w) && Next(w, s, w')
    requires w.Ctl(x).Locking? && w.Ctl(x).how.ByCond? && w'.Ctl(x) != w.Ctl(x)
    ensures w'.mem.M(w.Ctl(x).mutex).lockCount == w.mem.F(x).lockCount <==> w.mem.F(x).lockCount == 1
  {
    LockWaiterMoves(w, s, w', x);
    QueueMembership(w, x, ReadyQueue);
    hide Inv, Next;
  }

  // ---- melon_cond_signalnb ------------------------------------------------------------------

  /** At the end of the loop the waiters that it started with are either woken, as many as it
      counted, or dropped; none is dropped exactly if it was a broadcast or asked for enough. */
  lemma SignalEndsExactly(w: World, f: FiberId, w': World)
    requires Inv(w) && Next(w, SignalEnd(f), w')
    ensures
      var SignalLoop(c, nb, woken, total) := w.Ctl(f);
      && woken == (if nb == 0 || total <= nb then total else nb)
      && |w.mem.C(c)| == total - woken
      && w'.mem.C(c) == []
      && (forall x: FiberId :: x in w.mem.C(c) <==> w.Ctl(x).Waiting? && w.Ctl(x).cond == c && !w.Ctl(x).dropped)
      && (forall x: FiberId :: x in w.mem.C(c) ==> w'.Ctl(x) == w.Ctl(x).(dropped := true))
      && (w.mem.C(c) == [] <==> nb == 0 || total <= nb)
  {
    var c := w.Ctl(f).cond;
    FiberPart(w, f);
    assert forall x: FiberId :: x in w.mem.Queue(WaitQueue(c)) <==> PlaceOf(w.Ctl(x)) == Some(WaitQueue(c));
    hide Inv, Places, Timers;
    assert forall x: FiberId :: x in w.mem.C(c) ==> w.Ctl(x).Waiting?;
  }

  lemma DroppedNotSignalled(w: World, f: FiberId, w': World, x: FiberId)
    requires Inv(w) && Next(w, Step.SignalOne(f), w') && w.Ctl(x).Waiting? && w.Ctl(x).dropped
    ensures w'.Ctl(x) == w.Ctl(x)
  {
    QueueParts(w);
    PreserveCond.SignalHead(w, f, w.Ctl(f).cond, w.mem.C(w.Ctl(f).cond)[0]);
    UnsignalledWaiter(w, f, w', x);
  }

  lemma FiredIsNotDropped(w: World, now: int, w': World)
    requires Inv(w) && Next(w, Fire(now), w')
    ensures w.Ctl(w.mem.timerQueue[0]).Waiting? ==> !w.Ctl(w.mem.timerQueue[0]).dropped
  {
    var f := w.mem.timerQueue[0];
    QueueParts(w);
    FiberPart(w, f);
    assert f in w.mem.timerQueue;
    PreserveTimer.FireNotDropped(w, f, w');
  }

  lemma DroppedNotFired(w: World, now: int, w': World, x: FiberId)
    requires Inv(w) && Next(w, Fire(now), w') && w.Ctl(x).Waiting? && w.Ctl(x).dropped
    ensures w'.Ctl(x) == w.Ctl(x)
  {
    hide Inv, Next;
    LockWaiterFire(w, now, w', x);
    FiredIsNotDropped(w, now, w');
  }

  /** A dropped waiter is woken by nobody: only the expiry of a timed wait still concerns it, and
      that unlinks it from a ring in which it is not. */
  lemma DroppedForGood(w: World, s: Step, w': World, x: FiberId)
    requires Inv(w) && Inv(w') && Next(w, s, w') && w.Ctl(x).Waiting? && w.Ctl(x).dropped
    ensures w'.Ctl(x).Waiting? && w'.Ctl(x).dropped
  {
    hide Inv, Next;
    if s.SignalOne? {
      DroppedNotSignalled(w, s.f, w', x);
    } else if s.Fire? {
      DroppedNotFired(w, s.now, w', x);
    } else {
      hide LeftCondition;
      CondWaiterMoves(w, s, w', x);
    }
  }

  // ---- melon_io_manager_waitfor, the timer thread -------------------------------------------

  /** The result of an I/O wait says what ended it. */
  lemma WaitforReturns(w: World, w': World, f: FiberId, timed: bool, outcome: IoOutcome)
    requires Inv(w) && Next(w, Dispatch, w') && f == w.mem.ready[0]
    requires w.Ctl(f) == Runnable(FromWaitfor(timed, outcome))
    ensures w'.Ret(f) == match outcome {
        case GotEvent => RetOk
        case Expired => RetTimedOut
        case Canceled => RetCanceled
      }
    ensures f !in w'.mem.timerQueue && forall q: QueueId :: f !in w'.mem.Queue(q)
  {
    DispatchFacts(w, w', f);
    hide Inv, Next;
  }

  /** Closing a descriptor without melon_close keeps the promise of a wake-up exactly if no fiber
      waits for it. */
  lemma RawCloseLoses(w: World, fd: Fd)
    requires Inv(w)
    ensures
      var w' := Apply(w, RawClose(fd)).value;
      (forall e: Fd, dir: Direction :: NoLostWakeup(w'.mem, e, dir)) <==> Courteous(w, RawClose(fd))
  {
    var w' := Apply(w, RawClose(fd)).value;
    FdPart(w, fd);
    assert NoLostWakeup(w'.mem, fd, Read) ==> w.mem.D(fd).readQueue == [];
    assert NoLostWakeup(w'.mem, fd, Write) ==> w.mem.D(fd).writeQueue == [];
    if Courteous(w, RawClose(fd)) {
      hide Inv;
      PreserveIo.OtherFdsKept(w, w', fd);
    }
  }

  /** In every run: every waiter on a descriptor will be seen by the kernel or by the reactor. */
  lemma NoWakeupIsLost(ws: seq<World>, steps: seq<Step>, i: nat, fd: Fd, dir: Direction)
    requires Safety.CourteousRun(ws, steps) && i < |ws|
    requires ws[i].mem.D(fd).Queue(dir) != []
    ensures ws[i].mem.D(fd).registered
    ensures (ws[i].mem.D(fd).armed && ws[i].mem.D(fd).Armed(dir)) || ws[i].mem.D(fd).pending.Some?
  {
    Safety.RunInv(ws, steps, i);
    FdPart(ws[i], fd);
    hide Inv, Safety.CourteousRun;
  }

  /** In every run: a timer thread that sleeps unsignalled has a deadline, and wakes before any
      timer in the queue is due. */
  lemma TimerThreadNeverOversleeps(ws: seq<World>, steps: seq<Step>, i: nat, f: FiberId)
    requires Safety.CourteousRun(ws, steps) && i < |ws|
    requires ws[i].mem.timerThread.Asleep? && f in ws[i].mem.timerQueue
    ensures ws[i].mem.timerThread.deadline.Some?
    ensures Instant(ws[i].mem.timerThread.deadline.value) <= ws[i].mem.F(f).timer
  {
    var mem := ws[i].mem;
    assert TimersSorted(mem) && NoOversleep(mem) by {
      Safety.RunInv(ws, steps, i);
      QueueParts(ws[i]);
    }
    var k :| 0 <= k < |mem.timerQueue| && mem.timerQueue[k] == f;
    assert k > 0 ==> mem.F(mem.timerQueue[0]).timer <= mem.F(mem.timerQueue[k]).timer;
  }
}

/** src/timer_manager.c on the heap: melon_usleep and the expiry loop. */
module TimerCode {
  import opened Memory
  import opened Objects
  import opened Heap
  import Regions
  import LockCode
  import CondCode
  import IoCode

  /** melon_usleep until it calls melon_sched_next, at time `now`; the sum is an unsigned number of 64 bits. */
  method Usleep(g: Melon, self: Fiber, now: nat, usecs: nat)
    requires g.Valid() && self in g.fibers.Values && self.id !in g.View().timerQueue
    modifies g`timers, g`timerQueue, g`timerThread, g.fibers.Values
    ensures g.Valid() && g.View() == Regions.Usleep(old(g.View()), self.id, ToInt64(now + usecs * 1000))
    ensures self.timer == ToInt64(now + usecs * 1000) && self.timerCallback == UsleepCb && self in g.timers
  {
    hide Melon.Valid, Melon.View, Regions.TimerPush;
    SetTwice(g.View());
    g.ClearWaited(self);
    g.FiberRead(self);
    g.StartTimer(self, ToInt64(now + usecs * 1000), UsleepCb, self.timeout);
  }

  /** What a callback finds: a fiber that only sleeps is in no queue. */
  ghost predicate Fireable(g: Melon, n: Fiber)
    reads g`places, g`strays, n`timerCallback, n`waitedEvent
  {
    match n.timerCallback
    case UsleepCb => g.Free(n)
    case WaitforCb(_) => n.waitedEvent.read || n.waitedEvent.write || g.Free(n)
    case _ => true
  }

  /** One round of the expiry loop. */
  method FireHead(g: Melon) returns (curr: Fiber)
    requires g.Valid() && g.timerQueue != null && Fireable(g, g.timerQueue)
    requires g.View().timerQueue != [] && Regions.FireHead(g.View()).Ok?
    modifies g`ready, g`queues, g`places, g`timers, g`timerQueue, g.fibers.Values`next, g.fibers.Values`prev
    modifies g.fibers.Values`timerNext, g.fibers.Values`timerPrev
    modifies g.timerQueue`timer, g.timerQueue`timeout, g.timerQueue`waitedEvent
    modifies g.mutexes.Values`owner, g.mutexes.Values`lockCount
    modifies g.mutexes.Values`lockQueue, g.conds.Values`waitQueue, g.io.Values`readQueue, g.io.Values`writeQueue
    ensures g.Valid() && Regions.FireHead(old(g.View())) == Ok(g.View())
    ensures curr == old(g.timerQueue) && g.places.Keys == old(g.places).Keys + {curr}
  {
    hide Melon.Valid, Melon.View, Melon.Free, Melon.StraysKept, Regions.TimedlockCb, Regions.TimedwaitCb;
    hide Regions.WaitforCb, Regions.SchedReady;
    g.TimerHeadRead();
    curr := g.timerQueue;
    g.TimerRemove(curr);
    g.FiberRead(curr);
    match curr.timerCallback
    case UsleepCb => g.SchedReady(curr);
    case TimedlockCb(mutex) => LockCode.TimedlockExpired(g, curr, mutex);
    case TimedwaitCb(cond) => CondCode.Expired(g, curr, cond);
    case WaitforCb(fd) => IoCode.WaitforExpired(g, curr, fd);
  }

  ghost predicate AllFireable(g: Melon)
    reads g, g.fibers.Values, g.mutexes.Values, g.io.Values
  {
    Distinct(g.View().timerQueue) && forall n <- g.fibers.Values :: n.id in g.View().timerQueue ==> Fireable(g, n)
  }

  /** A round leaves the other timers as they were. */
  method ExpireOne(g: Melon)
    requires g.Valid() && g.timerQueue != null && AllFireable(g)
    requires g.View().timerQueue != [] && Regions.FireHead(g.View()).Ok?
    modifies g`ready, g`queues, g`places, g`timers, g`timerQueue
    modifies g.fibers.Values, g.mutexes.Values, g.conds.Values, g.io.Values
    ensures g.Valid() && AllFireable(g) && Regions.FireHead(old(g.View())) == Ok(g.View())
  {
    hide Melon.Valid, Melon.View, Regions.FireHead;
    ghost var v := g.View();
    g.TimerHeadRead();
    Regions.FireShrinks(v);
    assert Fireable(g, g.timerQueue);
    var curr := FireHead(g);
    forall n <- g.fibers.Values | n.id in g.View().timerQueue ensures Fireable(g, n) {
      assert n.id in v.timerQueue && n.id != v.timerQueue[0];
      assert n != curr && old(Fireable(g, n));
    }
  }

  /** The expiry loop of melon_timer_manager_loop at time `now`. */
  method Expire(g: Melon, now: int)
    requires g.Valid() && AllFireable(g) && Regions.Expire(g.View(), now).Ok?
    modifies g, g.fibers.Values, g.mutexes.Values, g.conds.Values, g.io.Values
    ensures g.Valid() && Regions.Expire(old(g.View()), now) == Ok(g.View())
  {
    hide Melon.Valid, Melon.View, Regions.FireHead, AllFireable;
    g.TimerHeadRead();
    var curr := g.timerQueue;
    while curr != null && curr.timer <= now
      invariant g.Valid() && curr == g.timerQueue && AllFireable(g)
      invariant Regions.Expire(g.View(), now) == Regions.Expire(old(g.View()), now)
      decreases |g.View().timerQueue|
    {
      g.TimerHeadRead();
      g.FiberRead(curr);
      Regions.FireShrinks(g.View());
      ExpireOne(g);
      curr := g.timerQueue;
    }
    g.TimerHeadRead();
    if curr != null { g.FiberRead(curr); }
  }

  /** The end of a pass: the thread builds a deadline from the head's timer, or waits for a signal. */
  method GoToSleep(g: Melon)
    requires g.Valid()
    modifies g`timerThread
    ensures g.Valid() && g.View() == Regions.TimerSleep(old(g.View()))
  {
    hide Melon.Valid;
    g.TimerHeadRead();
    if g.timerQueue != null {
      g.FiberRead(g.timerQueue);
      var tp := DeadlineOf(g.timerQueue.timer);
      g.SetTimerThread(Asleep(Some(tp)));
    } else {
      g.SetTimerThread(Asleep(None));
    }
  }
}

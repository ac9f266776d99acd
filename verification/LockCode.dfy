/** src/mutex.c on the heap: each locked part of each function changes the heap as the function of
    module Regions for it changes the value of the heap. */
module LockCode {
  import opened Memory
  import opened Objects
  import opened Heap
  import Regions

  /** melon_mutex_lock2. */
  method Lock2(g: Melon, fiber: Fiber, mutex: Mutex?)
    requires g.Valid() && g.Free(fiber) && (mutex != null ==> mutex in g.mutexes.Values)
    requires Regions.Lock2(g.View(), fiber.id, MutexName(mutex)).Ok?
    modifies g`ready, g`queues, g`places, g.fibers.Values`next, g.fibers.Values`prev, fiber`timer, fiber`waitedEvent
    modifies g.mutexes.Values`owner, g.mutexes.Values`lockCount
    modifies g.mutexes.Values`lockQueue, g.conds.Values`waitQueue, g.io.Values`readQueue, g.io.Values`writeQueue
    ensures g.Valid() && Regions.Lock2(old(g.View()), fiber.id, MutexName(mutex)) == Ok(g.View())
    ensures g.places.Keys == old(g.places).Keys + {fiber} && g.StraysKept(null)
  {
    hide Melon.Valid, Melon.View, Melon.Free;
    assert mutex != null;
    g.FreeParts(fiber);
    g.SetTimer(fiber, 0);
    g.OwnerRead(mutex);
    g.FiberRead(fiber);
    if mutex.owner == null {
      g.SetOwner(mutex, fiber, fiber.lockCount);
      g.OwnerRead(mutex);
      assert mutex.lockCount == 1 || (mutex.lockCount > 1 && mutex.isRecursive);
      g.SchedReady(fiber);
    } else {
      assert mutex.owner != fiber;
      g.Enqueue(LockHead(mutex), fiber);
    }
  }

  /** melon_mutex_lock; the result says that the fiber was queued and must call melon_sched_next. */
  method Lock(g: Melon, self: Fiber, mutex: Mutex) returns (queued: bool)
    requires g.Valid() && g.Free(self) && mutex in g.mutexes.Values
    requires Regions.Lock(g.View(), self.id, mutex.id).Ok?
    modifies g`queues, g`places, g.fibers.Values`next, g.fibers.Values`prev, self`timer, self`lockCount
    modifies mutex`owner, mutex`lockCount
    modifies g.mutexes.Values`lockQueue, g.conds.Values`waitQueue, g.io.Values`readQueue, g.io.Values`writeQueue
    ensures g.StraysKept(null)
    ensures g.Valid() && Regions.Lock(old(g.View()), self.id, mutex.id) == Ok((g.View(), queued))
    ensures queued <==> old(mutex.owner) != null && old(mutex.owner) != self
    ensures !queued ==>
              mutex.owner == self && mutex.lockCount == if old(mutex.owner) == null then 1 else old(mutex.lockCount) + 1
  {
    hide Melon.Valid, Melon.View, Melon.Free, Regions.Lock, Asking;
    LockIs(g.View(), self.id, mutex.id);
    g.FreeParts(self);
    Ask(g, self);
    g.OwnerRead(mutex);
    queued := false;
    if mutex.owner == null {
      g.SetOwner(mutex, self, 1);
    } else if mutex.owner == self {
      assert mutex.isRecursive;
      g.SetOwner(mutex, mutex.owner, mutex.lockCount + 1);
    } else {
      OtherOwner(g, self, mutex);
      g.Enqueue(LockHead(mutex), self);
      queued := true;
    }
  }

  /** A fiber about to lock, with its timer off and its depth set. */
  function Asking(v: Mem, f: FiberId): Mem {
    v.SetF(f, v.F(f).(timer := 0)).SetF(f, v.F(f).(timer := 0, lockCount := 1))
  }

  method Ask(g: Melon, self: Fiber)
    requires g.Valid() && self in g.fibers.Values
    modifies self`timer, self`lockCount
    ensures g.Valid() && g.View() == Asking(old(g.View()), self.id) && g.StraysKept(null)
  {
    hide Melon.Valid, Melon.View;
    g.SetTimer(self, 0);
    g.SetLockCount(self, 1);
  }

  lemma LockIs(v: Mem, f: FiberId, m: MutexId)
    ensures
      var v1, mutex := Asking(v, f), Asking(v, f).M(m);
      && mutex == v.M(m)
      && (mutex.owner == None ==>
            Regions.Lock(v, f, m) == Ok((v1.SetM(m, mutex.(owner := Some(f), lockCount := 1)), false)))
      && (mutex.owner == Some(f) && Regions.Lock(v, f, m).Ok? ==>
            && mutex.isRecursive
            && Regions.Lock(v, f, m) == Ok((v1.SetM(m, mutex.(lockCount := mutex.lockCount + 1)), false)))
      && (mutex.owner != None && mutex.owner != Some(f) ==>
            Regions.Lock(v, f, m) == Ok((v1.SetQueue(LockQueue(m), v1.Queue(LockQueue(m)) + [f]), true)))
  {
    SetTwice(v);
  }

  lemma OtherOwner(g: Melon, self: Fiber, mutex: Mutex)
    requires g.Valid() && self in g.fibers.Values && mutex in g.mutexes.Values && mutex.owner != self
    ensures g.View().M(mutex.id).owner != Some(self.id)
  {
    hide Melon.Valid;
    g.OwnerRead(mutex);
    if mutex.owner != null { g.SameName(mutex.owner, self); }
  }

  /** melon_mutex_trylock; the result says whether the lock was taken. */
  method Trylock(g: Melon, self: Fiber, mutex: Mutex) returns (taken: bool)
    requires g.Valid() && self in g.fibers.Values && mutex in g.mutexes.Values
    modifies mutex`owner, mutex`lockCount
    ensures g.Valid() && Regions.Trylock(old(g.View()), self.id, mutex.id) == (g.View(), taken)
    ensures taken <==> old(mutex.owner) == null || (mutex.isRecursive && old(mutex.owner) == self)
    ensures if taken then mutex.owner == self && mutex.lockCount == old(mutex.lockCount) + 1
            else mutex.owner == old(mutex.owner) && mutex.lockCount == old(mutex.lockCount)
  {
    hide Melon.Valid, Melon.View;
    g.OwnerRead(mutex);
    if mutex.owner == null || (mutex.isRecursive && mutex.owner == self) {
      g.SetOwner(mutex, self, mutex.lockCount + 1);
      return true;
    }
    OtherOwnerOrNot(g, self, mutex);
    return false;
  }

  lemma OtherOwnerOrNot(g: Melon, self: Fiber, mutex: Mutex)
    requires g.Valid() && self in g.fibers.Values && mutex in g.mutexes.Values
    ensures g.View().M(mutex.id).owner == Some(self.id) <==> mutex.owner == self
  {
    hide Melon.Valid;
    g.OwnerRead(mutex);
    if mutex.owner != self { OtherOwner(g, self, mutex); }
  }

  /** The locked part of melon_mutex_timedlock; the result says that the fiber was queued. */
  method TimedlockSlow(g: Melon, self: Fiber, mutex: Mutex, timeout: nat) returns (queued: bool)
    requires g.Valid() && g.Free(self) && mutex in g.mutexes.Values && self.id !in g.View().timerQueue
    modifies g`queues, g`places, g`timers, g`timerQueue, g`timerThread, g.fibers.Values`next, g.fibers.Values`prev
    modifies g.fibers.Values`timerNext, g.fibers.Values`timerPrev, self`timer, self`timerCallback, self`timeout
    modifies mutex`owner, mutex`lockCount
    modifies g.mutexes.Values`lockQueue, g.conds.Values`waitQueue, g.io.Values`readQueue, g.io.Values`writeQueue
    ensures g.Valid() && Regions.TimedlockSlow(old(g.View()), self.id, mutex.id, ToInt64(timeout)) == (g.View(), queued)
    ensures queued <==> old(mutex.owner) != null
    ensures queued ==> self.timer == ToInt64(timeout) && self.timerCallback == TimedlockCb(mutex) && self in g.timers
  {
    hide Melon.Valid, Melon.View, Melon.Free;
    g.FreeParts(self);
    g.OwnerRead(mutex);
    queued := false;
    if mutex.owner == null {
      g.SetOwner(mutex, self, mutex.lockCount + 1);
      return;
    }
    g.Enqueue(LockHead(mutex), self);
    g.StartTimer(self, ToInt64(timeout), TimedlockCb(mutex), false);
    queued := true;
  }

  /** The first statement of melon_mutex_unlock; the result says that the mutex is to be released. */
  method UnlockDecrement(g: Melon, mutex: Mutex) returns (release: bool)
    requires g.Valid() && mutex in g.mutexes.Values
    requires Regions.UnlockDecrement(g.View(), mutex.id).Ok?
    modifies mutex`owner, mutex`lockCount
    ensures g.Valid() && Regions.UnlockDecrement(old(g.View()), mutex.id) == Ok((g.View(), release))
    ensures mutex.owner == old(mutex.owner) && mutex.lockCount == old(mutex.lockCount) - 1
    ensures mutex.lockCount >= 0 && (release <==> mutex.lockCount == 0)
  {
    hide Melon.Valid, Melon.View;
    g.OwnerRead(mutex);
    assert mutex.lockCount > 0;
    g.SetOwner(mutex, mutex.owner, mutex.lockCount - 1);
    release := !(mutex.lockCount > 0);
    g.OwnerRead(mutex);
  }

  /** The first locked part of melon_mutex_unlock; the result says that waiters were seen. */
  method UnlockFast(g: Melon, mutex: Mutex) returns (waiters: bool)
    requires g.Valid() && mutex in g.mutexes.Values
    modifies mutex`owner, mutex`lockCount
    ensures g.Valid() && Regions.UnlockFast(old(g.View()), mutex.id) == (g.View(), waiters)
  {
    hide Melon.Valid, Melon.View;
    g.HeadIsNull(LockHead(mutex));
    g.OwnerRead(mutex);
    if mutex.lockQueue == null {
      g.SetOwner(mutex, null, mutex.lockCount);
      return false;
    }
    return true;
  }

  /** The second locked part of melon_mutex_unlock. */
  method UnlockHandoff(g: Melon, mutex: Mutex)
    requires g.Valid() && mutex in g.mutexes.Values
    requires Regions.UnlockHandoff(g.View(), mutex.id).Ok?
    modifies g`ready, g`queues, g`places, g`timers, g`timerQueue, g.fibers.Values`next, g.fibers.Values`prev
    modifies g.fibers.Values`timerNext, g.fibers.Values`timerPrev, g.fibers.Values`waitedEvent
    modifies mutex`owner, mutex`lockCount
    modifies g.mutexes.Values`lockQueue, g.conds.Values`waitQueue, g.io.Values`readQueue, g.io.Values`writeQueue
    ensures g.Valid() && Regions.UnlockHandoff(old(g.View()), mutex.id) == Ok(g.View())
  {
    hide Melon.Valid, Melon.View, Melon.Free, Melon.StraysKept, Regions.CancelTimer, Regions.SchedReady;
    g.OwnerRead(mutex);
    HandoffIs(g.View(), mutex.id);
    var next := g.Pop(LockHead(mutex));
    g.SetOwner(mutex, next, mutex.lockCount);
    if next != null {
      hide Regions.UnlockHandoff;
      Give(g, mutex, next);
    }
  }

  /** The new owner is counted, loses its timer and becomes ready. */
  method Give(g: Melon, mutex: Mutex, next: Fiber)
    requires g.Valid() && mutex in g.mutexes.Values && g.Free(next) && mutex.owner == next
    requires Regions.CancelTimer(g.View(), next.id).Ok?
    modifies g`ready, g`queues, g`places, g`timers, g`timerQueue, g.fibers.Values`next, next`waitedEvent
    modifies g.fibers.Values`timerNext, g.fibers.Values`timerPrev, mutex`owner, mutex`lockCount
    ensures g.Valid()
    ensures
      var v := Regions.CancelTimer(old(g.View()), next.id).value;
      g.View() == Regions.SchedReady(v.SetM(mutex.id, v.M(mutex.id).(lockCount := v.M(mutex.id).lockCount + 1)),
                                     next.id)
  {
    hide Melon.Valid, Melon.View, Melon.Free, Melon.StraysKept, Regions.CancelTimer, Regions.SchedReady;
    g.FreeParts(next);
    g.CancelTimer(mutex.owner);
    g.OwnerRead(mutex);
    g.SetOwner(mutex, mutex.owner, mutex.lockCount + 1);
    g.SchedReady(mutex.owner);
  }

  /** The hand-off, with the pop and the change of the owner apart. */
  lemma HandoffIs(v: Mem, m: MutexId)
    ensures
      var q := v.M(m).lockQueue;
      q != [] ==>
        var v1 := v.SetQueue(LockQueue(m), q[1..]);
        var v2 := Regions.CancelTimer(v1.SetM(m, v1.M(m).(owner := Some(q[0]), lockCount := v.M(m).lockCount)), q[0]);
        Regions.UnlockHandoff(v, m)
        == if v2.Ok? then
          Ok(Regions.SchedReady(v2.value.SetM(m, v2.value.M(m).(lockCount := v2.value.M(m).lockCount + 1)), q[0]))
           else Failed(v2.fault)
  {
    SetTwice(v);
    hide Regions.CancelTimer, Regions.SchedReady;
  }

  /** melon_mutex_timedlock_cb. */
  method TimedlockExpired(g: Melon, fiber: Fiber, mutex: Mutex)
    requires g.Valid() && fiber in g.fibers.Values && mutex in g.mutexes.Values
    requires Regions.TimedlockCb(g.View(), fiber.id, mutex.id).Ok?
    modifies g`ready, g`queues, g`places, g.fibers.Values`next, g.fibers.Values`prev, fiber`timeout, fiber`waitedEvent
    modifies g.mutexes.Values`lockQueue, g.conds.Values`waitQueue, g.io.Values`readQueue, g.io.Values`writeQueue
    ensures g.Valid() && Regions.TimedlockCb(old(g.View()), fiber.id, mutex.id) == Ok(g.View())
    ensures g.places.Keys == old(g.places).Keys + {fiber}
  {
    hide Melon.Valid, Melon.View, Melon.Free, Melon.StraysKept;
    g.Dequeue(LockHead(mutex), fiber);
    g.SetTimeout(fiber);
    g.SchedReady(fiber);
  }
}

/** src/cond.c on the heap. */
module CondCode {
  import opened Memory
  import opened Objects
  import opened Rings
  import opened Heap
  import Regions
  import LockCode

  /** melon_cond_wait up to the release of the condition's spinlock. */
  method Wait(g: Melon, self: Fiber, cond: Cond, mutex: Mutex)
    requires g.Valid() && g.Free(self) && cond in g.conds.Values && mutex in g.mutexes.Values
    requires Regions.CondEnqueue(g.View(), self.id, cond.id, mutex.id).Ok?
    modifies g`queues, g`places, g.fibers.Values`next, g.fibers.Values`prev, self`condMutex, self`lockCount, self`timer
    modifies g.mutexes.Values`lockQueue, g.conds.Values`waitQueue, g.io.Values`readQueue, g.io.Values`writeQueue
    ensures g.StraysKept(null)
    ensures g.Valid() && Regions.CondEnqueue(old(g.View()), self.id, cond.id, mutex.id) == Ok(g.View())
    ensures self.condMutex == mutex && self.lockCount == mutex.lockCount && self.timer == 0
  {
    hide Melon.Valid, Melon.View, Melon.Free;
    SetTwice(g.View());
    g.FreeParts(self);
    g.OwnerRead(mutex);
    if mutex.owner != null { g.SameName(mutex.owner, self); }
    assert mutex.owner == self;
    g.SetSaved(self, mutex, mutex.lockCount);
    g.SetTimer(self, 0);
    g.Enqueue(WaitHead(cond), self);
  }

  /** melon_cond_timedwait up to the release of g_melon.lock. */
  method TimedWait(g: Melon, self: Fiber, cond: Cond, mutex: Mutex, timeout: nat)
    requires g.Valid() && g.Free(self) && cond in g.conds.Values && mutex in g.mutexes.Values
    requires self.id !in g.View().timerQueue
    requires Regions.CondTimedEnqueue(g.View(), self.id, cond.id, mutex.id, ToInt64(timeout)).Ok?
    modifies g`queues, g`places, g`timers, g`timerQueue, g`timerThread, g.fibers.Values`next, g.fibers.Values`prev
    modifies g.fibers.Values`timerNext, g.fibers.Values`timerPrev
    modifies self`condMutex, self`lockCount, self`timer, self`timerCallback, self`timeout
    modifies g.mutexes.Values`lockQueue, g.conds.Values`waitQueue, g.io.Values`readQueue, g.io.Values`writeQueue
    ensures g.Valid()
    ensures Regions.CondTimedEnqueue(old(g.View()), self.id, cond.id, mutex.id, ToInt64(timeout)) == Ok(g.View())
    ensures self.condMutex == mutex && self.lockCount == mutex.lockCount
    ensures self.timer == ToInt64(timeout) && self.timerCallback == TimedwaitCb(cond) && self in g.timers
  {
    hide Melon.Valid, Melon.View, Melon.Free, Melon.StraysKept, Regions.TimerPush, Regions.CondTimedEnqueue;
    hide Mem.SetQueue, Mem.Queue, Mem.SetF, Mem.F, Mem.M;
    g.FreeParts(self);
    MayWait(g, self, cond, mutex, ToInt64(timeout));
    TimedWaitIs(g.View(), self.id, cond.id, mutex.id, ToInt64(timeout), MutexName(mutex), mutex.lockCount);
    g.SetSaved(self, mutex, mutex.lockCount);
    g.Enqueue(WaitHead(cond), self);
    g.StartTimer(self, ToInt64(timeout), TimedwaitCb(cond), false);
  }

  /** The assertion of melon_cond_timedwait, on pointers. */
  lemma MayWait(g: Melon, self: Fiber, cond: Cond, mutex: Mutex, timer: int)
    requires g.Valid() && self in g.fibers.Values && mutex in g.mutexes.Values
    requires Regions.CondTimedEnqueue(g.View(), self.id, cond.id, mutex.id, timer).Ok?
    ensures mutex.owner == self
    ensures g.View().M(mutex.id).owner == Some(self.id) && g.View().M(mutex.id).lockCount == mutex.lockCount
  {
    hide Melon.Valid, Melon.View, Regions.TimerPush;
    g.OwnerRead(mutex);
    if mutex.owner != null { g.SameName(mutex.owner, self); }
  }

  lemma TimedWaitIs(v: Mem, f: FiberId, c: CondId, m: MutexId, timer: int, saved: Option<MutexId>, n: int)
    requires v.M(m).owner == Some(f) && v.M(m).lockCount == n && saved == Some(m)
    ensures
      var v1 := v.SetF(f, v.F(f).(condMutex := saved, lockCount := n));
      var v2 := v1.SetQueue(WaitQueue(c), v1.Queue(WaitQueue(c)) + [f]);
      var v3 := v2.SetF(f, v2.F(f).(timer := timer, timerCallback := TimedwaitCallback(c), timeout := false));
      v2.timerQueue == v.timerQueue && Regions.CondTimedEnqueue(v, f, c, m, timer) == Ok(Regions.TimerPush(v3, f))
  {
    var fiber := v.F(f).(condMutex := Some(m), lockCount := v.M(m).lockCount);
    var alarmed := fiber.(timer := timer, timerCallback := TimedwaitCallback(c), timeout := false);
    assert v.fibers[f := fiber][f := alarmed] == v.fibers[f := fiber.(timer := 0)][f := alarmed];
    hide Regions.TimerPush;
  }

  /** The end of melon_cond_wait: every recursion level is given up at once. */
  method Release(g: Melon, mutex: Mutex)
    requires g.Valid() && mutex in g.mutexes.Values
    modifies mutex`owner, mutex`lockCount
    ensures g.Valid() && g.View() == Regions.CondRelease(old(g.View()), mutex.id)
  {
    hide Melon.Valid, Melon.View;
    SetTwice(g.View());
    g.OwnerRead(mutex);
    g.SetOwner(mutex, mutex.owner, 1);
    g.SetOwner(mutex, mutex.owner, mutex.lockCount - 1);
  }

  /** melon_cond_timedwait_cb. */
  method Expired(g: Melon, fiber: Fiber, cond: Cond)
    requires g.Valid() && fiber in g.fibers.Values && cond in g.conds.Values
    requires Regions.TimedwaitCb(g.View(), fiber.id, cond.id).Ok?
    modifies g`ready, g`queues, g`places, g.fibers.Values`next, g.fibers.Values`prev
    modifies fiber`timer, fiber`timeout, fiber`waitedEvent, g.mutexes.Values`owner, g.mutexes.Values`lockCount
    modifies g.mutexes.Values`lockQueue, g.conds.Values`waitQueue, g.io.Values`readQueue, g.io.Values`writeQueue
    ensures g.Valid() && Regions.TimedwaitCb(old(g.View()), fiber.id, cond.id) == Ok(g.View())
    ensures g.places.Keys == old(g.places).Keys + {fiber}
  {
    hide Melon.Valid, Melon.View, Melon.Free, Melon.StraysKept, Regions.Lock2;
    g.Dequeue(WaitHead(cond), fiber);
    g.SetTimeout(fiber);
    g.FiberRead(fiber);
    LockCode.Lock2(g, fiber, fiber.condMutex);
  }

  // ---- melon_cond_signalnb ------------------------------------------------------------------

  /** What happens to a waiter does not depend on the waiters behind it. */
  lemma WakeCommutes(v: Mem, c: CondId, q: seq<FiberId>, f: FiberId)
    requires q != [] && q[0] == f && Regions.SignalOne(v.SetC(c, q), c).Ok?
    ensures
      var v1 := Regions.CancelTimer(v, f);
      && v1.Ok?
      && v1.value.F(f) == v.F(f)
      && Regions.Lock2(v1.value, f, v.F(f).condMutex).Ok?
      && Regions.SignalOne(v.SetC(c, q), c) == Ok(Regions.Lock2(v1.value, f, v.F(f).condMutex).value.SetC(c, q[1..]))
  {
    assert v.conds[c := q][c := q[1..]] == v.conds[c := q[1..]];
  }

  /** The links of the local list, before and after a wake-up. */
  lemma SameLinks(list: Fiber?, s: seq<Fiber>, nexts: seq<Fiber?>, prevs: seq<Fiber?>)
    requires Distinct(s) && list == Head(s) && Forward(s, nexts) && Backward(s, prevs)
    requires Linked(s, nexts, prevs)
    ensures Ring(list, s, Plain)
  {
    assert Nexts(s, Plain) == nexts;
    assert Prevs(s, Plain) == prevs;
  }

  /** One round of the loop, on the head of the local list. */
  method WakeOne(g: Melon, fiber: Fiber, list: Fiber?, ghost rest: seq<Fiber>)
    requires g.Valid() && g.Free(fiber)
    requires Ring(list, rest, Plain) && Members(rest) <= g.strays <= g.fibers.Values
    requires Regions.CancelTimer(g.View(), fiber.id).Ok?
    requires Regions.Lock2(Regions.CancelTimer(g.View(), fiber.id).value, fiber.id, g.View().F(fiber.id).condMutex).Ok?
    modifies g`ready, g`queues, g`places, g`timers, g`timerQueue
    modifies g.fibers.Values`next, g.fibers.Values`prev, g.fibers.Values`timerNext, g.fibers.Values`timerPrev
    modifies fiber`timer, fiber`waitedEvent, g.mutexes.Values`owner, g.mutexes.Values`lockCount
    modifies g.mutexes.Values`lockQueue, g.conds.Values`waitQueue, g.io.Values`readQueue, g.io.Values`writeQueue
    ensures g.Valid() && Ring(list, rest, Plain)
    ensures
      var v := old(g.View());
      Ok(g.View()) == Regions.Lock2(Regions.CancelTimer(v, fiber.id).value, fiber.id, v.F(fiber.id).condMutex)
  {
    hide Melon.Valid, Melon.View, Melon.Free, Regions.Lock2, Regions.CancelTimer, Ring, Distinct, Forward, Backward;
    hide Head;
    RingLinks(list, rest);
    ghost var nexts, prevs := Nexts(rest, Plain), Prevs(rest, Plain);
    g.FreeParts(fiber);
    g.FiberRead(fiber);
    g.CancelTimer(fiber);
    g.FiberRead(fiber);
    Relock(g, fiber, rest, nexts, prevs);
    SameLinks(list, rest, nexts, prevs);
  }

  ghost predicate Linked(s: seq<Fiber>, nexts: seq<Fiber?>, prevs: seq<Fiber?>)
    reads Members(s)
  {
    && |nexts| == |s| && |prevs| == |s|
    && forall i :: 0 <= i < |s| ==> s[i].next == nexts[i] && s[i].prev == prevs[i]
  }

  /** melon_mutex_lock2 does not reach the local list. */
  method Relock(g: Melon, fiber: Fiber, ghost rest: seq<Fiber>, ghost nexts: seq<Fiber?>, ghost prevs: seq<Fiber?>)
    requires g.Valid() && g.Free(fiber)
    requires Linked(rest, nexts, prevs) && Members(rest) <= g.strays <= g.fibers.Values
    requires fiber.condMutex != null ==> fiber.condMutex in g.mutexes.Values
    requires Regions.Lock2(g.View(), fiber.id, MutexName(fiber.condMutex)).Ok?
    modifies g`ready, g`queues, g`places, g.fibers.Values`next, g.fibers.Values`prev, fiber`timer, fiber`waitedEvent
    modifies g.mutexes.Values`owner, g.mutexes.Values`lockCount
    modifies g.mutexes.Values`lockQueue, g.conds.Values`waitQueue, g.io.Values`readQueue, g.io.Values`writeQueue
    ensures g.Valid() && Linked(rest, nexts, prevs)
    ensures Regions.Lock2(old(g.View()), fiber.id, MutexName(fiber.condMutex)) == Ok(g.View())
  {
    hide Melon.Valid, Melon.View, Melon.Free, Regions.Lock2;
    LockCode.Lock2(g, fiber, fiber.condMutex);
  }

  lemma RingLinks(list: Fiber?, s: seq<Fiber>)
    requires Ring(list, s, Plain)
    ensures Distinct(s) && list == Head(s) && Forward(s, Nexts(s, Plain)) && Backward(s, Prevs(s, Plain))
  {
  }

  /** The memory that the loop of melon_cond_signalnb works on: the local list is still the
      condition's queue there. */
  ghost function Loop(g: Melon, cond: Cond, rest: seq<Fiber>): Mem
    reads g, g.fibers.Values, g.mutexes.Values, g.io.Values
  {
    g.View().SetC(cond.id, Ids(rest))
  }

  /** What the loop of melon_cond_signalnb keeps. */
  ghost predicate InLoop(g: Melon, cond: Cond, list: Fiber?, rest: seq<Fiber>)
    reads g, g.fibers.Values, g.mutexes.Values, g.conds.Values, g.io.Values
  {
    && g.Valid() && Members(rest) <= g.fibers.Values && Members(rest) <= g.strays && Ring(list, rest, Plain)
    && cond.id in g.View().conds && g.View().C(cond.id) == []
  }

  /** One round of the loop. */
  method Round(g: Melon, cond: Cond, list: Fiber?, ghost rest: seq<Fiber>) returns (list': Fiber?, fiber: Fiber?)
    requires InLoop(g, cond, list, rest)
    requires rest != [] ==> Regions.SignalOne(Loop(g, cond, rest), cond.id).Ok?
    modifies g`ready, g`queues, g`places, g`strays, g`timers, g`timerQueue
    modifies g.fibers.Values, g.mutexes.Values, g.conds.Values, g.io.Values
    ensures fiber == Head(rest)
    ensures fiber == null ==> InLoop(g, cond, list', rest) && g.View() == old(g.View())
    ensures fiber != null ==>
              && InLoop(g, cond, list', rest[1..]) && g.strays == old(g.strays) - {fiber}
              && Regions.SignalOne(old(Loop(g, cond, rest)), cond.id) == Ok(Loop(g, cond, rest[1..]))
  {
    hide Melon.Valid, Melon.View, Melon.Free, Ring, Regions.SignalOne, Regions.Lock2, Regions.CancelTimer;
    g.StrayParts();
    list', fiber := g.PopStray(list, rest);
    if fiber != null {
      g.StrayParts();
      WakeCommutes(g.View(), cond.id, Ids(rest), fiber.id);
      CondsStay(g.View(), fiber.id, cond.id);
      WakeOne(g, fiber, list', rest[1..]);
      assert Ids(rest)[1..] == Ids(rest[1..]);
    }
  }

  /** A wake-up leaves the conditions alone. */
  lemma CondsStay(v: Mem, f: FiberId, c: CondId)
    requires Regions.CancelTimer(v, f).Ok? && Regions.Lock2(Regions.CancelTimer(v, f).value, f, v.F(f).condMutex).Ok?
    ensures Regions.Lock2(Regions.CancelTimer(v, f).value, f, v.F(f).condMutex).value.conds == v.conds
  {
  }

  /** melon_cond_signalnb. */
  method Signal(g: Melon, cond: Cond, nb: nat) returns (nwokeup: nat)
    requires g.Valid() && cond in g.conds.Values
    requires Regions.SignalLoop(g.View(), cond.id, nb, 0).Ok?
    modifies g`ready, g`queues, g`places, g`strays, g`timers, g`timerQueue
    modifies g.fibers.Values, g.mutexes.Values, g.conds.Values, g.io.Values
    ensures g.Valid() && Regions.SignalLoop(old(g.View()), cond.id, nb, 0) == Ok((g.View(), nwokeup))
  {
    hide Melon.Valid, Melon.View, Melon.Free, Ring, Regions.SignalOne, InLoop;
    g.CondRead(cond);
    Retake(g.View(), cond.id);
    var list, rest := g.TakeAll(cond);
    nwokeup := 0;
    g.CondRead(cond);
    LoopStarts(g, cond, list, rest);
    while nb == 0 || nwokeup < nb
      invariant InLoop(g, cond, list, rest)
      invariant Regions.SignalLoop(old(g.View()), cond.id, nb, 0)
          == Regions.SignalLoop(Loop(g, cond, rest), cond.id, nb, nwokeup)
      decreases |rest|
    {
      LoopGoesOn(g, cond, list, rest, nb, nwokeup);
      var fiber;
      list, fiber := Round(g, cond, list, rest);
      if fiber == null {
        break;
      }
      nwokeup := nwokeup + 1;
      rest := rest[1..];
    }
    LoopEnds(g, cond, list, rest);
  }

  lemma LoopStarts(g: Melon, cond: Cond, list: Fiber?, rest: seq<Fiber>)
    requires g.Valid() && Members(rest) <= g.fibers.Values && Members(rest) <= g.strays && Ring(list, rest, Plain)
    requires cond.id in g.View().conds && g.View().C(cond.id) == []
    ensures InLoop(g, cond, list, rest)
  {
    hide Melon.Valid, Melon.View, Ring;
  }

  lemma LoopGoesOn(g: Melon, cond: Cond, list: Fiber?, rest: seq<Fiber>, nb: nat, woken: nat)
    requires InLoop(g, cond, list, rest) && (nb == 0 || woken < nb)
    requires Regions.SignalLoop(Loop(g, cond, rest), cond.id, nb, woken).Ok?
    ensures rest != [] ==>
              var one := Regions.SignalOne(Loop(g, cond, rest), cond.id);
              one.Ok? && Regions.SignalLoop(Loop(g, cond, rest), cond.id, nb, woken)
                  == Regions.SignalLoop(one.value, cond.id, nb, woken + 1)
    ensures rest == [] ==> Regions.SignalLoop(Loop(g, cond, rest), cond.id, nb, woken) == Ok((g.View(), woken))
  {
    hide Melon.Valid, Melon.View, Ring, Regions.SignalOne;
    var v := g.View();
    assert v.conds[cond.id := []] == v.conds;
    SetTwiceC(v, cond.id, Ids(rest), []);
  }

  lemma LoopEnds(g: Melon, cond: Cond, list: Fiber?, rest: seq<Fiber>)
    requires InLoop(g, cond, list, rest)
    ensures g.Valid() && Loop(g, cond, rest).SetC(cond.id, []) == g.View()
  {
    hide Melon.Valid, Melon.View, Ring;
    var v := g.View();
    assert v.conds[cond.id := []] == v.conds;
    SetTwiceC(v, cond.id, Ids(rest), []);
  }

  lemma SetTwiceC(v: Mem, c: CondId, a: seq<FiberId>, b: seq<FiberId>)
    ensures v.SetC(c, a).SetC(c, b) == v.SetC(c, b)
  {
    assert v.conds[c := a][c := b] == v.conds[c := b];
  }

  /** Taking the queue and putting it back changes nothing. */
  lemma Retake(v: Mem, c: CondId)
    requires c in v.conds
    ensures v.SetC(c, []).SetC(c, v.C(c)) == v
  {
    assert v.conds[c := []][c := v.conds[c]] == v.conds;
  }
}

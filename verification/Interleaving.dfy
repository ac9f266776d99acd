/** The steps that can fall into the loop of a melon_cond_signalnb, on the heap: they leave the signaller's
    local list alone. */
module Interleaving {
  import opened Memory
  import opened Objects
  import opened Rings
  import opened Heap
  import opened Machine
  import opened Invariant
  import opened Bridge
  import Regions
  import LockCode
  import CondCode
  import IoCode
  import Faults
  import Outcomes

  /** The links of the local list. */
  ghost predicate Links(l: Local, nexts: seq<Fiber?>, prevs: seq<Fiber?>)
    reads if l.Call? then Members(l.rest) else {}
  {
    l.Call? ==>
      && CondCode.Linked(l.rest, nexts, prevs)
      && Distinct(l.rest) && l.list == Head(l.rest) && Forward(l.rest, nexts) && Backward(l.rest, prevs)
  }

  lemma TakeLinks(g: Melon, l: Local) returns (nexts: seq<Fiber?>, prevs: seq<Fiber?>)
    requires ListOk(g, l)
    ensures Links(l, nexts, prevs)
  {
    hide Melon.Valid, Melon.View, Distinct, Forward, Backward;
    nexts, prevs := if l.Call? then Nexts(l.rest, Plain) else [], if l.Call? then Prevs(l.rest, Plain) else [];
  }

  /** The local list is what it was, if its links are. */
  lemma ListStays(g: Melon, l: Local, nexts: seq<Fiber?>, prevs: seq<Fiber?>)
    requires g.Valid() && Links(l, nexts, prevs)
    requires l.Call? ==>
               && l.cond in g.conds.Values && Members(l.rest) <= g.strays && Members(l.rest) <= g.fibers.Values
               && g.View().C(l.cond.id) == []
    ensures ListOk(g, l)
  {
    hide Melon.Valid, Melon.View, Distinct, Forward, Backward;
    if l.Call? {
      g.CondRead(l.cond);
      CondCode.SameLinks(l.list, l.rest, nexts, prevs);
    }
  }

  lemma ListFacts(g: Melon, l: Local)
    requires ListOk(g, l)
    ensures l.Call? ==>
              && l.cond in g.conds.Values && Members(l.rest) <= g.strays && Members(l.rest) <= g.fibers.Values
              && g.View().C(l.cond.id) == []
  {
    hide Melon.Valid, Melon.View;
  }

  // ---- What a region makes of the value does not depend on the waiters in the local list -----

  lemma TrylockCommutes(v: Mem, c: CondId, q: seq<FiberId>, f: FiberId, m: MutexId)
    ensures Regions.Trylock(v.SetC(c, q), f, m) == (Regions.Trylock(v, f, m).0.SetC(c, q), Regions.Trylock(v, f, m).1)
    ensures Regions.Trylock(v, f, m).0.conds == v.conds
  {
  }

  lemma LockCommutes(v: Mem, c: CondId, q: seq<FiberId>, f: FiberId, m: MutexId)
    requires Regions.Lock(v.SetC(c, q), f, m).Ok?
    ensures Regions.Lock(v, f, m).Ok?
    ensures
      var (mem, queued) := Regions.Lock(v, f, m).value;
      Regions.Lock(v.SetC(c, q), f, m) == Ok((mem.SetC(c, q), queued)) && mem.conds == v.conds
  {
  }

  lemma UnlockCommutes(v: Mem, c: CondId, q: seq<FiberId>, m: MutexId)
    requires Regions.UnlockDecrement(v.SetC(c, q), m).Ok?
    ensures Regions.UnlockDecrement(v, m).Ok?
    ensures
      var (mem, release) := Regions.UnlockDecrement(v, m).value;
      Regions.UnlockDecrement(v.SetC(c, q), m) == Ok((mem.SetC(c, q), release)) && mem.conds == v.conds
  {
  }

  lemma UnlockFastCommutes(v: Mem, c: CondId, q: seq<FiberId>, m: MutexId)
    ensures
      var (mem, waiters) := Regions.UnlockFast(v, m);
      Regions.UnlockFast(v.SetC(c, q), m) == (mem.SetC(c, q), waiters) && mem.conds == v.conds
  {
  }

  lemma WaitCommutes(v: Mem, c: CondId, q: seq<FiberId>, f: FiberId, d: CondId, m: MutexId)
    requires c != d && Regions.CondEnqueue(v.SetC(c, q), f, d, m).Ok?
    ensures Regions.CondEnqueue(v, f, d, m).Ok?
    ensures
      var mem := Regions.CondEnqueue(v, f, d, m).value;
      Regions.CondEnqueue(v.SetC(c, q), f, d, m) == Ok(mem.SetC(c, q)) && mem.C(c) == v.C(c)
  {
    var s := v.C(d) + [f];
    assert v.conds[c := q][d := s] == v.conds[d := s][c := q];
  }

  lemma ReleaseCommutes(v: Mem, c: CondId, q: seq<FiberId>, m: MutexId)
    ensures Regions.CondRelease(v.SetC(c, q), m) == Regions.CondRelease(v, m).SetC(c, q)
    ensures Regions.CondRelease(v, m).conds == v.conds
  {
  }

  lemma KernelCommutes(v: Mem, c: CondId, q: seq<FiberId>, fd: Fd, event: EpollEvent)
    ensures Regions.Deliver(v.SetC(c, q), fd, event) == Regions.Deliver(v, fd, event).SetC(c, q)
    ensures Regions.KernelClose(v.SetC(c, q), fd) == Regions.KernelClose(v, fd).SetC(c, q)
    ensures Regions.Deliver(v, fd, event).conds == v.conds && Regions.KernelClose(v, fd).conds == v.conds
  {
  }

  /** melon_mutex_lock does not reach the local list. */
  method LockApart(g: Melon, self: Fiber, mutex: Mutex, ghost l: Local, ghost nexts: seq<Fiber?>,
                   ghost prevs: seq<Fiber?>)
    returns (queued: bool)
    requires g.Valid() && g.Free(self) && mutex in g.mutexes.Values && Regions.Lock(g.View(), self.id, mutex.id).Ok?
    requires Links(l, nexts, prevs) && (l.Call? ==> Members(l.rest) <= g.strays && Members(l.rest) <= g.fibers.Values)
    modifies g`queues, g`places, g.fibers.Values`next, g.fibers.Values`prev, self`timer, self`lockCount
    modifies mutex`owner, mutex`lockCount
    modifies g.mutexes.Values`lockQueue, g.conds.Values`waitQueue, g.io.Values`readQueue, g.io.Values`writeQueue
    ensures g.Valid() && Regions.Lock(old(g.View()), self.id, mutex.id) == Ok((g.View(), queued))
    ensures Links(l, nexts, prevs)
  {
    hide Melon.Valid, Melon.View, Melon.Free, Regions.Lock, Distinct, Forward, Backward;
    queued := LockCode.Lock(g, self, mutex);
  }

  /** Neither does melon_cond_wait. */
  method WaitApart(g: Melon, self: Fiber, cond: Cond, mutex: Mutex, ghost l: Local, ghost nexts: seq<Fiber?>,
                   ghost prevs: seq<Fiber?>)
    requires g.Valid() && g.Free(self) && mutex in g.mutexes.Values && cond in g.conds.Values
    requires Regions.CondEnqueue(g.View(), self.id, cond.id, mutex.id).Ok?
    requires Links(l, nexts, prevs) && (l.Call? ==> Members(l.rest) <= g.strays && Members(l.rest) <= g.fibers.Values)
    modifies g`queues, g`places, g.fibers.Values`next, g.fibers.Values`prev, self`condMutex, self`lockCount, self`timer
    modifies g.mutexes.Values`lockQueue, g.conds.Values`waitQueue, g.io.Values`readQueue, g.io.Values`writeQueue
    ensures g.Valid() && Regions.CondEnqueue(old(g.View()), self.id, cond.id, mutex.id) == Ok(g.View())
    ensures Links(l, nexts, prevs)
  {
    hide Melon.Valid, Melon.View, Melon.Free, Regions.CondEnqueue, Distinct, Forward, Backward;
    CondCode.Wait(g, self, cond, mutex);
  }

  // ---- The steps ----------------------------------------------------------------------------

  method Trylock(g: Melon, self: Fiber, mutex: Mutex, ghost w: World, ghost w': World, ghost l: Local)
    returns (taken: bool)
    requires Represents(g, w, l) && Inv(w) && Inv(w') && self in g.fibers.Values && mutex in g.mutexes.Values
    requires Next(w, Step.Trylock(self.id, mutex.id), w')
    modifies mutex`owner, mutex`lockCount
    ensures Represents(g, w', l)
  {
    hide Inv, Melon.Valid, Melon.View, Melon.Free, Represents, StraysAre, SignallerIs, ListOk, Links, Regions.Trylock;
    ReprParts(g, w, l);
    ListFacts(g, l);
    assert w'.mem == Regions.Trylock(w.mem, self.id, mutex.id).0;
    hide Next;
    ghost var nexts, prevs := TakeLinks(g, l);
    if l.Call? { TrylockCommutes(g.View(), l.cond.id, Ids(l.rest), self.id, mutex.id); }
    taken := LockCode.Trylock(g, self, mutex);
    ListStays(g, l, nexts, prevs);
    Carries(g, w, Step.Trylock(self.id, mutex.id), w', l);
  }

  method Timedlock(g: Melon, self: Fiber, mutex: Mutex, ghost timeout: nat, ghost w: World, ghost w': World,
                   ghost l: Local)
    returns (taken: bool)
    requires Represents(g, w, l) && Inv(w) && Inv(w') && self in g.fibers.Values && mutex in g.mutexes.Values
    requires Next(w, Step.Timedlock(self.id, mutex.id, timeout), w')
    modifies mutex`owner, mutex`lockCount
    ensures Represents(g, w', l)
  {
    hide Inv, Melon.Valid, Melon.View, Melon.Free, Represents, StraysAre, SignallerIs, ListOk, Links, Regions.Trylock;
    ReprParts(g, w, l);
    ListFacts(g, l);
    assert w'.mem == Regions.Trylock(w.mem, self.id, mutex.id).0;
    hide Next;
    ghost var nexts, prevs := TakeLinks(g, l);
    if l.Call? { TrylockCommutes(g.View(), l.cond.id, Ids(l.rest), self.id, mutex.id); }
    taken := LockCode.Trylock(g, self, mutex);
    ListStays(g, l, nexts, prevs);
    Carries(g, w, Step.Timedlock(self.id, mutex.id, timeout), w', l);
  }

  method Lock(g: Melon, self: Fiber, mutex: Mutex, ghost w: World, ghost w': World, ghost l: Local)
    returns (queued: bool)
    requires Represents(g, w, l) && Inv(w) && Inv(w') && self in g.fibers.Values && mutex in g.mutexes.Values
    requires Next(w, Step.Lock(self.id, mutex.id), w')
    modifies g`queues, g`places, g.fibers.Values`next, g.fibers.Values`prev, self`timer, self`lockCount
    modifies mutex`owner, mutex`lockCount
    modifies g.mutexes.Values`lockQueue, g.conds.Values`waitQueue, g.io.Values`readQueue, g.io.Values`writeQueue
    ensures Represents(g, w', l)
  {
    hide Inv, Melon.Valid, Melon.View, Melon.Free, Represents, StraysAre, SignallerIs, ListOk, Links, Regions.Lock;
    ReprParts(g, w, l);
    ListFacts(g, l);
    RunningIsFree(g, w, l, self);
    assert Regions.Lock(w.mem, self.id, mutex.id).Ok? && w'.mem == Regions.Lock(w.mem, self.id, mutex.id).value.0;
    hide Next;
    ghost var nexts, prevs := TakeLinks(g, l);
    if l.Call? { LockCommutes(g.View(), l.cond.id, Ids(l.rest), self.id, mutex.id); }
    queued := LockApart(g, self, mutex, l, nexts, prevs);
    ListStays(g, l, nexts, prevs);
    Carries(g, w, Step.Lock(self.id, mutex.id), w', l);
  }

  method Unlock(g: Melon, self: Fiber, mutex: Mutex, ghost w: World, ghost w': World, ghost l: Local)
    returns (release: bool)
    requires Represents(g, w, l) && Inv(w) && Inv(w') && mutex in g.mutexes.Values
    requires Next(w, Step.Unlock(self.id, mutex.id), w')
    modifies mutex`owner, mutex`lockCount
    ensures Represents(g, w', l)
  {
    hide Inv, Melon.Valid, Melon.View, Melon.Free, Represents, StraysAre, SignallerIs, ListOk, Links;
    hide Regions.UnlockDecrement;
    ReprParts(g, w, l);
    ListFacts(g, l);
    assert Regions.UnlockDecrement(w.mem, mutex.id).Ok? && w'.mem == Regions.UnlockDecrement(w.mem, mutex.id).value.0;
    hide Next;
    ghost var nexts, prevs := TakeLinks(g, l);
    if l.Call? { UnlockCommutes(g.View(), l.cond.id, Ids(l.rest), mutex.id); }
    release := LockCode.UnlockDecrement(g, mutex);
    ListStays(g, l, nexts, prevs);
    Carries(g, w, Step.Unlock(self.id, mutex.id), w', l);
  }

  method UnlockFast(g: Melon, self: Fiber, mutex: Mutex, ghost w: World, ghost w': World, ghost l: Local)
    returns (waiters: bool)
    requires Represents(g, w, l) && Inv(w) && Inv(w') && mutex in g.mutexes.Values
    requires ReleasingMutex(w.Ctl(self.id)) == Some((mutex.id, false))
    requires Next(w, Step.UnlockFast(self.id), w')
    modifies mutex`owner, mutex`lockCount
    ensures Represents(g, w', l)
  {
    hide Inv, Melon.Valid, Melon.View, Melon.Free, Represents, StraysAre, SignallerIs, ListOk, Links;
    hide Regions.UnlockFast;
    ReprParts(g, w, l);
    ListFacts(g, l);
    assert w'.mem == Regions.UnlockFast(w.mem, mutex.id).0;
    hide Next;
    ghost var nexts, prevs := TakeLinks(g, l);
    if l.Call? { UnlockFastCommutes(g.View(), l.cond.id, Ids(l.rest), mutex.id); }
    waiters := LockCode.UnlockFast(g, mutex);
    ListStays(g, l, nexts, prevs);
    Carries(g, w, Step.UnlockFast(self.id), w', l);
  }

  method CondWait(g: Melon, self: Fiber, cond: Cond, mutex: Mutex, ghost w: World, ghost w': World, ghost l: Local)
    requires Represents(g, w, l) && Inv(w) && Inv(w') && self in g.fibers.Values && mutex in g.mutexes.Values
    requires cond in g.conds.Values
    requires Next(w, Step.CondWait(self.id, cond.id, mutex.id), w')
    modifies g`queues, g`places, g.fibers.Values`next, g.fibers.Values`prev, self`condMutex, self`lockCount, self`timer
    modifies g.mutexes.Values`lockQueue, g.conds.Values`waitQueue, g.io.Values`readQueue, g.io.Values`writeQueue
    ensures Represents(g, w', l)
  {
    hide Inv, Melon.Valid, Melon.View, Melon.Free, Represents, StraysAre, SignallerIs, ListOk, Links;
    hide Regions.CondEnqueue;
    ReprParts(g, w, l);
    ListFacts(g, l);
    RunningIsFree(g, w, l, self);
    OtherCond(w, l, self.id, cond.id, mutex.id, w');
    assert Regions.CondEnqueue(w.mem, self.id, cond.id, mutex.id) == Ok(w'.mem);
    hide Next;
    ghost var nexts, prevs := TakeLinks(g, l);
    if l.Call? { WaitCommutes(g.View(), l.cond.id, Ids(l.rest), self.id, cond.id, mutex.id); }
    WaitApart(g, self, cond, mutex, l, nexts, prevs);
    ListStays(g, l, nexts, prevs);
    Carries(g, w, Step.CondWait(self.id, cond.id, mutex.id), w', l);
  }

  method CondRelease(g: Melon, self: Fiber, mutex: Mutex, ghost w: World, ghost w': World, ghost l: Local)
    requires Represents(g, w, l) && Inv(w) && Inv(w') && mutex in g.mutexes.Values && w.Ctl(self.id).Waiting?
    requires w.Ctl(self.id).mutex == mutex.id
    requires Next(w, Step.CondRelease(self.id), w')
    modifies mutex`owner, mutex`lockCount
    ensures Represents(g, w', l)
  {
    hide Inv, Melon.Valid, Melon.View, Melon.Free, Represents, StraysAre, SignallerIs, ListOk, Links;
    hide Regions.CondRelease;
    ReprParts(g, w, l);
    ListFacts(g, l);
    assert w'.mem == Regions.CondRelease(w.mem, mutex.id);
    hide Next;
    ghost var nexts, prevs := TakeLinks(g, l);
    if l.Call? { ReleaseCommutes(g.View(), l.cond.id, Ids(l.rest), mutex.id); }
    CondCode.Release(g, mutex);
    ListStays(g, l, nexts, prevs);
    Carries(g, w, Step.CondRelease(self.id), w', l);
  }

  method Deliver(g: Melon, fd: Fd, event: EpollEvent, ghost w: World, ghost w': World, ghost l: Local)
    requires Represents(g, w, l) && Inv(w) && Inv(w') && fd in g.io
    requires Next(w, Step.Deliver(fd, event), w')
    modifies g.io.Values`isInEpoll, g.io.Values`epoll
    ensures Represents(g, w', l)
  {
    hide Inv, Melon.Valid, Melon.View, Melon.Free, Represents, StraysAre, SignallerIs, ListOk, Links, Regions.Deliver;
    hide Regions.KernelClose;
    ReprParts(g, w, l);
    ListFacts(g, l);
    assert w'.mem == Regions.Deliver(w.mem, fd, event);
    hide Next;
    ghost var nexts, prevs := TakeLinks(g, l);
    if l.Call? { KernelCommutes(g.View(), l.cond.id, Ids(l.rest), fd, event); }
    IoCode.Deliver(g, fd, event);
    ListStays(g, l, nexts, prevs);
    Carries(g, w, Step.Deliver(fd, event), w', l);
  }

  method RawClose(g: Melon, fd: Fd, ghost w: World, ghost w': World, ghost l: Local)
    requires Represents(g, w, l) && Inv(w) && Inv(w') && fd in g.io
    requires Next(w, Step.RawClose(fd), w')
    modifies g.io.Values`isInEpoll, g.io.Values`epoll
    ensures Represents(g, w', l)
  {
    hide Inv, Melon.Valid, Melon.View, Melon.Free, Represents, StraysAre, SignallerIs, ListOk, Links, Regions.Deliver;
    hide Regions.KernelClose;
    ReprParts(g, w, l);
    ListFacts(g, l);
    assert w'.mem == Regions.KernelClose(w.mem, fd);
    hide Next;
    ghost var nexts, prevs := TakeLinks(g, l);
    if l.Call? { KernelCommutes(g.View(), l.cond.id, Ids(l.rest), fd, EpollEvent(false, false, false)); }
    IoCode.RawClose(g, fd);
    ListStays(g, l, nexts, prevs);
    Carries(g, w, Step.RawClose(fd), w', l);
  }

  method TimerWake(g: Melon, ghost w: World, ghost w': World, ghost l: Local)
    requires Represents(g, w, l) && Inv(w) && Inv(w')
    requires Next(w, Step.TimerWake, w')
    modifies g`timerThread
    ensures Represents(g, w', l)
  {
    hide Inv, Melon.Valid, Melon.View, Melon.Free, Represents, StraysAre, SignallerIs, ListOk, Links;
    ReprParts(g, w, l);
    ListFacts(g, l);
    assert w'.mem == w.mem.(timerThread := Awake);
    hide Next;
    ghost var nexts, prevs := TakeLinks(g, l);
    g.SetTimerThread(Awake);
    ListStays(g, l, nexts, prevs);
    Carries(g, w, Step.TimerWake, w', l);
  }

  /** A signaller holds the spinlock of its condition. */
  lemma OtherCond(w: World, l: Local, f: FiberId, c: CondId, m: MutexId, w': World)
    requires SignallerIs(w, l) && Next(w, Step.CondWait(f, c, m), w')
    ensures l.Call? ==> l.cond.id != c
  {
  }

  // ---- melon_cond_signalnb, step by step ----------------------------------------------------

  lemma BeginMemory(w: World, f: FiberId, c: CondId, nb: nat, w': World)
    requires Inv(w) && Next(w, Step.SignalBegin(f, c, nb), w')
    ensures w'.mem == w.mem && w'.big == Some(f) && w'.Ctl(f).SignalLoop? && w'.Ctl(f).cond == c
    ensures forall x: FiberId :: Faults.IsDropped(w, x) ==> Faults.IsDropped(w', x)
  {
    hide Inv;
  }

  method SignalBegin(g: Melon, ghost f: FiberId, cond: Cond, ghost nb: nat, ghost w: World, ghost w': World)
    returns (list: Fiber?, ghost l: Local)
    requires Represents(g, w, NoCall) && Inv(w) && Inv(w') && cond in g.conds.Values
    requires Next(w, Step.SignalBegin(f, cond.id, nb), w')
    modifies g`queues, g`places, g`strays, cond`waitQueue
    ensures l.Call? && l.cond == cond && l.list == list && Represents(g, w', l)
  {
    hide Inv, Melon.Valid, Melon.View, Represents, Next, Ring;
    ReprParts(g, w, NoCall);
    BeginMemory(w, f, cond.id, nb, w');
    g.CondRead(cond);
    CondCode.Retake(g.View(), cond.id);
    ghost var rest;
    list, rest := g.TakeAll(cond);
    l := Call(cond, list, rest);
    g.CondRead(cond);
    CondCode.LoopStarts(g, cond, list, rest);
    ReprWhole(g, w', l);
  }

  lemma OneMemory(w: World, f: FiberId, w': World)
    requires Inv(w) && Next(w, Step.SignalOne(f), w')
    ensures w.big == Some(f) && w.Ctl(f).SignalLoop? && w.mem.C(w.Ctl(f).cond) != []
    ensures Regions.SignalOne(w.mem, w.Ctl(f).cond) == Ok(w'.mem)
    ensures w'.big == w.big && w'.Ctl(f).SignalLoop? && w'.Ctl(f).cond == w.Ctl(f).cond
  {
    var x := w.mem.C(w.Ctl(f).cond)[0];
    Outcomes.QueueMembership(w, x, WaitQueue(w.Ctl(f).cond));
    assert x != f;
    hide Inv, Regions.SignalOne;
  }

  method SignalOne(g: Melon, ghost f: FiberId, cond: Cond, list: Fiber?, ghost rest: seq<Fiber>, ghost w: World,
                   ghost w': World)
    returns (list': Fiber?)
    requires Represents(g, w, Call(cond, list, rest)) && Inv(w) && Inv(w')
    requires Next(w, Step.SignalOne(f), w')
    modifies g`ready, g`queues, g`places, g`strays, g`timers, g`timerQueue
    modifies g.fibers.Values, g.mutexes.Values, g.conds.Values, g.io.Values
    ensures rest != [] && Represents(g, w', Call(cond, list', rest[1..]))
  {
    hide Inv, Melon.Valid, Melon.View, Represents, Next, CondCode.InLoop, Regions.SignalOne;
    ghost var l := Call(cond, list, rest);
    ReprParts(g, w, l);
    OneMemory(w, f, w');
    LoopIsValue(g, w, cond, list, rest);
    StraysStay(g, w, Step.SignalOne(f), w', l);
    var fiber;
    list', fiber := CondCode.Round(g, cond, list, rest);
    LoopValid(g, cond, list', rest[1..]);
    assert rest == [rest[0]] + rest[1..];
    ReprWhole(g, w', Call(cond, list', rest[1..]));
  }

  /** In the loop the value has the rest of the list as the condition's queue. */
  lemma LoopIsValue(g: Melon, w: World, cond: Cond, list: Fiber?, rest: seq<Fiber>)
    requires ListOk(g, Call(cond, list, rest))
    ensures Value(g, Call(cond, list, rest)) == CondCode.Loop(g, cond, rest)
    ensures Value(g, Call(cond, list, rest)).C(cond.id) == Ids(rest)
  {
    hide Melon.Valid, Melon.View, CondCode.InLoop;
  }

  lemma LoopValid(g: Melon, cond: Cond, list: Fiber?, rest: seq<Fiber>)
    requires CondCode.InLoop(g, cond, list, rest) && cond in g.conds.Values
    ensures g.Valid() && ListOk(g, Call(cond, list, rest))
    ensures Value(g, Call(cond, list, rest)) == CondCode.Loop(g, cond, rest)
  {
    hide Melon.Valid, Melon.View;
  }

  lemma EndMemory(w: World, f: FiberId, w': World)
    requires Inv(w) && Next(w, Step.SignalEnd(f), w')
    ensures w.big == Some(f) && w.Ctl(f).SignalLoop? && w'.big == None
    ensures w'.mem == w.mem.SetC(w.Ctl(f).cond, [])
  {
    hide Inv;
  }

  /** When the loop ends, the fibers that are still in the local list are dropped. */
  lemma SignalEnd(g: Melon, f: FiberId, w: World, w': World, l: Local)
    requires Represents(g, w, l) && Inv(w) && Inv(w') && Next(w, Step.SignalEnd(f), w')
    ensures Represents(g, w', NoCall)
  {
    hide Inv, Melon.Valid, Melon.View, Represents, Next, CondCode.InLoop;
    ReprParts(g, w, l);
    EndMemory(w, f, w');
    LoopIsValue(g, w, l.cond, l.list, l.rest);
    CondCode.LoopEnds(g, l.cond, l.list, l.rest);
    StraysStay(g, w, Step.SignalEnd(f), w', l);
    forall n <- g.strays ensures Faults.IsDropped(w', n.id) {
      if n in l.rest { LostWaiter(w, f, w', l, n); }
    }
    ReprWhole(g, w', NoCall);
  }

  lemma LostWaiter(w: World, f: FiberId, w': World, l: Local, n: Fiber)
    requires Inv(w) && Next(w, Step.SignalEnd(f), w') && w.Ctl(f).SignalLoop?
    requires l.Call? && w.mem.C(w.Ctl(f).cond) == Ids(l.rest) && n in l.rest
    ensures Faults.IsDropped(w', n.id)
  {
    hide Inv, Next;
    var i :| 0 <= i < |l.rest| && l.rest[i] == n;
    assert Ids(l.rest)[i] == n.id;
    Outcomes.SignalEndsExactly(w, f, w');
  }
}

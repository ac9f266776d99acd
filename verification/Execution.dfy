/** Every step of the machine as a call of the method that runs it on the heap.  Each method takes a
    heap that represents the world before the step to one that represents the world after it. */
module Execution {
  import opened Memory
  import opened Objects
  import opened Heap
  import opened Machine
  import opened Invariant
  import opened Bridge
  import Regions
  import LockCode
  import CondCode
  import IoCode
  import TimerCode
  import Passes

  // ---- The beginning ------------------------------------------------------------------------

  /** An epoll that does not know the descriptor. */
  const NO_EPOLL := Epoll(false, false, false, false, None)

  lemma FreshObjects(g: Melon)
    requires g.Valid() && forall q :: g.View().Queue(q) == []
    requires forall m <- g.mutexes.Values :: m.owner == null && m.lockCount == 0
    requires forall d <- g.io.Values :: !d.isInEpoll && d.epoll == NO_EPOLL
    ensures forall m: MutexId :: g.View().M(m) == FRESH_MUTEX.(isRecursive := g.View().M(m).isRecursive)
    ensures forall c: CondId :: g.View().C(c) == []
    ensures forall fd: Fd :: g.View().D(fd) == FRESH_DESCRIPTOR
  {
    g.Parts();
    g.ViewIs();
    hide Melon.Valid, Melon.View;
    forall m: MutexId ensures g.View().M(m) == FRESH_MUTEX.(isRecursive := g.View().M(m).isRecursive) {
      assert g.View().Queue(LockQueue(m)) == [];
      if m in g.mutexes { g.OwnerRead(g.mutexes[m]); }
    }
    forall c: CondId ensures g.View().C(c) == [] { assert g.View().Queue(WaitQueue(c)) == []; }
    forall fd: Fd ensures g.View().D(fd) == FRESH_DESCRIPTOR {
      assert g.View().Queue(FdQueue(fd, Read)) == [] && g.View().Queue(FdQueue(fd, Write)) == [];
      if fd in g.io { g.KnownFd(fd); g.FdRead(g.io[fd]); }
    }
  }

  /** The runtime on objects as their init functions leave them represents a world in which a run of the
      machine begins. */
  method Boot(ghost fs: map<FiberId, Fiber>, ghost ms: map<MutexId, Mutex>, ghost cs: map<CondId, Cond>,
              ios: map<Fd, Io>)
    returns (g: Melon, ghost w: World)
    requires forall i :: i in fs ==>
        fs[i].id == i && fs[i].next == null && fs[i].condMutex == null && fs[i].timerCallback == NoCb
    requires forall i :: i in ms ==>
        ms[i].id == i && ms[i].owner == null && ms[i].lockQueue == null && ms[i].lockCount == 0
    requires forall i :: i in cs ==> cs[i].id == i && cs[i].waitQueue == null
    requires forall i :: i in ios ==> ios[i].id == i && ios[i].readQueue == null && ios[i].writeQueue == null
    requires forall i :: i in ios ==> !ios[i].isInEpoll && ios[i].epoll == NO_EPOLL
    ensures Init(w) && Represents(g, w, NoCall)
    ensures g.fibers == fs && g.mutexes == ms && g.conds == cs && g.io == ios
  {
    hide Melon.Valid, Melon.View;
    g := new Melon(fs, ms, cs, ios);
    w := World(g.View(), map[], map[], None);
    FreshObjects(g);
    ReprWhole(g, w, NoCall);
  }

  // ---- Steps under g_melon.lock -------------------------------------------------------------

  method Spawn(g: Melon, f: Fiber, ghost w: World, ghost w': World)
    requires Represents(g, w, NoCall) && Inv(w) && Inv(w') && f in g.fibers.Values
    requires Next(w, Step.Spawn(f.id), w')
    modifies g`ready, g`queues, g`places, g.fibers.Values`next, f`waitedEvent
    ensures Represents(g, w', NoCall)
  {
    hide Inv, Melon.Valid, Melon.View, Melon.Free, Represents, StraysAre, SignallerIs, Regions.SchedReady;
    ReprParts(g, w, NoCall);
    RunningIsFree(g, w, NoCall, f);
    assert w'.mem == Regions.SchedReady(w.mem, f.id);
    hide Next;
    g.SchedReady(f);
    CarriesAlone(g, w, Step.Spawn(f.id), w');
  }

  method Dispatch(g: Melon, ghost w: World, ghost w': World) returns (f: Fiber?)
    requires Represents(g, w, NoCall) && Inv(w) && Inv(w') && Next(w, Step.Dispatch, w')
    modifies g`ready, g`queues, g`places, g.fibers.Values`next
    ensures f != null && Represents(g, w', NoCall)
  {
    hide Inv, Melon.Valid, Melon.View, Melon.Free, Represents, StraysAre, SignallerIs;
    ReprParts(g, w, NoCall);
    assert w.mem.ready != [] && w'.mem == w.mem.(ready := w.mem.ready[1..]);
    hide Next;
    f := g.NextReady();
    CarriesAlone(g, w, Step.Dispatch, w');
  }

  method TimedlockSlow(g: Melon, self: Fiber, mutex: Mutex, timeout: nat, ghost w: World, ghost w': World)
    requires Represents(g, w, NoCall) && Inv(w) && Inv(w') && self in g.fibers.Values && mutex in g.mutexes.Values
    requires w.Ctl(self.id) == RetryTimedlock(mutex.id, timeout) && Next(w, Step.TimedlockSlow(self.id), w')
    modifies g`queues, g`places, g`timers, g`timerQueue, g`timerThread
    modifies g.fibers.Values, g.mutexes.Values, g.conds.Values, g.io.Values
    ensures Represents(g, w', NoCall)
  {
    hide Inv, Melon.Valid, Melon.View, Melon.Free, Represents, StraysAre, SignallerIs, Regions.TimedlockSlow;
    ReprParts(g, w, NoCall);
    RunningIsFree(g, w, NoCall, self);
    assert w'.mem == Regions.TimedlockSlow(w.mem, self.id, mutex.id, ToInt64(timeout)).0;
    hide Next;
    var _ := LockCode.TimedlockSlow(g, self, mutex, timeout);
    CarriesAlone(g, w, Step.TimedlockSlow(self.id), w');
  }

  method UnlockHandoff(g: Melon, self: Fiber, mutex: Mutex, ghost w: World, ghost w': World)
    requires Represents(g, w, NoCall) && Inv(w) && Inv(w') && mutex in g.mutexes.Values
    requires ReleasingMutex(w.Ctl(self.id)) == Some((mutex.id, true)) && Next(w, Step.UnlockHandoff(self.id), w')
    modifies g`ready, g`queues, g`places, g`timers, g`timerQueue
    modifies g.fibers.Values, g.mutexes.Values, g.conds.Values, g.io.Values
    ensures Represents(g, w', NoCall)
  {
    hide Inv, Melon.Valid, Melon.View, Melon.Free, Represents, StraysAre, SignallerIs, Regions.UnlockHandoff;
    ReprParts(g, w, NoCall);
    assert Regions.UnlockHandoff(w.mem, mutex.id) == Ok(w'.mem);
    hide Next;
    LockCode.UnlockHandoff(g, mutex);
    CarriesAlone(g, w, Step.UnlockHandoff(self.id), w');
  }

  method CondTimedwait(g: Melon, self: Fiber, cond: Cond, mutex: Mutex, timeout: nat, ghost w: World, ghost w': World)
    requires Represents(g, w, NoCall) && Inv(w) && Inv(w') && self in g.fibers.Values
    requires cond in g.conds.Values && mutex in g.mutexes.Values
    requires Next(w, Step.CondTimedwait(self.id, cond.id, mutex.id, timeout), w')
    modifies g`ready, g`queues, g`places, g`timers, g`timerQueue, g`timerThread
    modifies g.fibers.Values, g.mutexes.Values, g.conds.Values, g.io.Values
    ensures Represents(g, w', NoCall)
  {
    hide Inv, Melon.Valid, Melon.View, Melon.Free, Represents, StraysAre, SignallerIs, Regions.CondTimedEnqueue;
    ReprParts(g, w, NoCall);
    RunningIsFree(g, w, NoCall, self);
    assert Regions.CondTimedEnqueue(w.mem, self.id, cond.id, mutex.id, ToInt64(timeout)) == Ok(w'.mem);
    hide Next;
    CondCode.TimedWait(g, self, cond, mutex, timeout);
    CarriesAlone(g, w, Step.CondTimedwait(self.id, cond.id, mutex.id, timeout), w');
  }

  method Usleep(g: Melon, self: Fiber, now: nat, usecs: nat, ghost w: World, ghost w': World)
    requires Represents(g, w, NoCall) && Inv(w) && Inv(w') && self in g.fibers.Values
    requires Next(w, Step.Usleep(self.id, ToInt64(now + usecs * 1000)), w')
    modifies g`ready, g`queues, g`places, g`timers, g`timerQueue, g`timerThread
    modifies g.fibers.Values, g.mutexes.Values, g.conds.Values, g.io.Values
    ensures Represents(g, w', NoCall)
  {
    hide Inv, Melon.Valid, Melon.View, Melon.Free, Represents, StraysAre, SignallerIs, Regions.Usleep;
    ReprParts(g, w, NoCall);
    RunningIsFree(g, w, NoCall, self);
    assert w'.mem == Regions.Usleep(w.mem, self.id, ToInt64(now + usecs * 1000));
    hide Next;
    TimerCode.Usleep(g, self, now, usecs);
    CarriesAlone(g, w, Step.Usleep(self.id, ToInt64(now + usecs * 1000)), w');
  }

  method Waitfor(g: Melon, self: Fiber, fd: Fd, events: Events, timeout: int, ghost w: World, ghost w': World)
    requires Represents(g, w, NoCall) && Inv(w) && Inv(w') && self in g.fibers.Values && fd in g.io
    requires Next(w, Step.Waitfor(self.id, fd, events, timeout), w')
    modifies g`ready, g`queues, g`places, g`timers, g`timerQueue, g`timerThread
    modifies g.fibers.Values, g.mutexes.Values, g.conds.Values, g.io.Values
    ensures Represents(g, w', NoCall)
  {
    hide Inv, Melon.Valid, Melon.View, Melon.Free, Represents, StraysAre, SignallerIs, Regions.Waitfor;
    ReprParts(g, w, NoCall);
    RunningIsFree(g, w, NoCall, self);
    assert Regions.Waitfor(w.mem, self.id, fd, events, timeout) == Ok(w'.mem);
    hide Next;
    var queued := IoCode.Waitfor(g, self, fd, events, timeout, 2);
    assert queued;
    CarriesAlone(g, w, Step.Waitfor(self.id, fd, events, timeout), w');
  }

  method Close(g: Melon, self: Fiber, fd: Fd, closes: bool, ghost w: World, ghost w': World) returns (ret: int)
    requires Represents(g, w, NoCall) && Inv(w) && Inv(w') && fd in g.io
    requires Next(w, Step.Close(self.id, fd, closes), w')
    modifies g`ready, g`queues, g`places, g`timers, g`timerQueue, g`timerThread
    modifies g.fibers.Values, g.mutexes.Values, g.conds.Values, g.io.Values
    ensures Represents(g, w', NoCall)
  {
    hide Inv, Melon.Valid, Melon.View, Melon.Free, Represents, StraysAre, SignallerIs, Regions.Close, DoClose;
    ReprParts(g, w, NoCall);
    Passes.ReactorSteps(w, fd, closes);
    assert Regions.Close(w.mem, fd, closes) == Ok(w'.mem);
    hide Next;
    ret := IoCode.Close(g, fd, closes);
    CarriesAlone(g, w, Step.Close(self.id, fd, closes), w');
  }

  method Cancelio(g: Melon, self: Fiber, fd: Fd, ghost w: World, ghost w': World)
    requires Represents(g, w, NoCall) && Inv(w) && Inv(w') && fd in g.io
    requires Next(w, Step.Cancelio(self.id, fd), w')
    modifies g`ready, g`queues, g`places, g`timers, g`timerQueue, g`timerThread
    modifies g.fibers.Values, g.mutexes.Values, g.conds.Values, g.io.Values
    ensures Represents(g, w', NoCall)
  {
    hide Inv, Melon.Valid, Melon.View, Melon.Free, Represents, StraysAre, SignallerIs, Regions.FlushAll, FlushBoth;
    ReprParts(g, w, NoCall);
    Passes.FlushBothIsRelease(w, fd, true);
    assert Regions.FlushAll(w.mem, fd, true) == Ok(w'.mem);
    hide Next;
    IoCode.FlushAll(g, fd, true);
    CarriesAlone(g, w, Step.Cancelio(self.id, fd), w');
  }

  lemma HandleIs(w: World, fd: Fd, event: EpollEvent, w': World)
    requires Inv(w) && Next(w, Step.Handle(fd), w') && w.mem.D(fd).pending == Some(event)
    ensures Regions.Handle(w.mem, fd, event) == Ok(w'.mem)
  {
    hide Inv, Regions.Handle, DoHandle;
    Passes.ReactorSteps(w, fd, true);
  }

  method Handle(g: Melon, fd: Fd, event: EpollEvent, ghost w: World, ghost w': World)
    requires Represents(g, w, NoCall) && Inv(w) && Inv(w') && fd in g.io && w.mem.D(fd).pending == Some(event)
    requires Next(w, Step.Handle(fd), w')
    modifies g`ready, g`queues, g`places, g`timers, g`timerQueue, g`timerThread
    modifies g.fibers.Values, g.mutexes.Values, g.conds.Values, g.io.Values
    ensures Represents(g, w', NoCall)
  {
    hide Inv, Next, Melon.Valid, Melon.View, Melon.Free, Represents, StraysAre, SignallerIs, Regions.Handle;
    ReprParts(g, w, NoCall);
    HandleIs(w, fd, event, w');
    IoCode.Handle(g, fd, event);
    CarriesAlone(g, w, Step.Handle(fd), w');
  }

  method Fire(g: Melon, ghost now: int, ghost w: World, ghost w': World)
    requires Represents(g, w, NoCall) && Inv(w) && Inv(w')
    requires Next(w, Step.Fire(now), w')
    modifies g`ready, g`queues, g`places, g`timers, g`timerQueue, g`timerThread
    modifies g.fibers.Values, g.mutexes.Values, g.conds.Values, g.io.Values
    ensures Represents(g, w', NoCall)
  {
    hide Inv, Melon.Valid, Melon.View, Melon.Free, Represents, StraysAre, SignallerIs, Regions.FireHead;
    hide TimerCode.AllFireable;
    ReprParts(g, w, NoCall);
    TimersCanFire(g, w);
    g.TimerHeadRead();
    assert w.mem.timerQueue != [] && Regions.FireHead(w.mem) == Ok(w'.mem);
    hide Next;
    TimerCode.ExpireOne(g);
    CarriesAlone(g, w, Step.Fire(now), w');
  }

  method TimerSleep(g: Melon, ghost now: int, ghost w: World, ghost w': World)
    requires Represents(g, w, NoCall) && Inv(w) && Inv(w')
    requires Next(w, Step.TimerSleep(now), w')
    modifies g`ready, g`queues, g`places, g`timers, g`timerQueue, g`timerThread
    modifies g.fibers.Values, g.mutexes.Values, g.conds.Values, g.io.Values
    ensures Represents(g, w', NoCall)
  {
    hide Inv, Melon.Valid, Melon.View, Melon.Free, Represents, StraysAre, SignallerIs, Regions.TimerSleep;
    ReprParts(g, w, NoCall);
    assert w'.mem == Regions.TimerSleep(w.mem);
    hide Next;
    TimerCode.GoToSleep(g);
    CarriesAlone(g, w, Step.TimerSleep(now), w');
  }
}

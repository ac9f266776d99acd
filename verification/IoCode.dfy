/** src/io_manager_epoll.c and the cancellation part of src/io.c on the heap. */
module IoCode {
  import opened Memory
  import opened Objects
  import opened Heap
  import Regions

  /** The interest that epoll_ctl sets, with MOD or ADD. */
  function Armed(e: Epoll, read: bool, write: bool): Epoll {
    e.(registered := true, armed := true, armedRead := read, armedWrite := write)
  }

  /** The value once the descriptor is armed and the fiber is in its queue. */
  function Parked(v: Mem, f: FiberId, fd: Fd, events: Events): Mem {
    var d := Regions.Arm(v.D(fd), v.D(fd).readQueue != [] || events.read, v.D(fd).writeQueue != [] || events.write);
    var dir := if events.read then Read else Write;
    var fiber := v.F(f).(waitedEvent := events, ioCanceled := false);
    v.SetD(fd, d.(isInEpoll := true).WithQueue(dir, d.Queue(dir) + [f])).SetF(f, fiber)
  }

  lemma WaitforIs(v: Mem, f: FiberId, fd: Fd, events: Events, timeout: int)
    requires events.read || events.write
    ensures
      var p := Parked(v, f, fd, events);
      var alarmed := p.F(f).(timer := timeout, timerCallback := WaitforCallback(fd), timeout := false);
      Regions.Waitfor(v, f, fd, events, timeout)
      == Ok(if timeout > 0 then Regions.TimerPush(p.SetF(f, alarmed), f) else p.SetF(f, p.F(f).(timer := 0)))
  {
    hide Regions.TimerPush;
    var d := Regions.Arm(v.D(fd), v.D(fd).readQueue != [] || events.read, v.D(fd).writeQueue != [] || events.write);
    var dir := if events.read then Read else Write;
    SetTwice(v.SetD(fd, d.(isInEpoll := true).WithQueue(dir, d.Queue(dir) + [f])));
  }

  /** How many calls of epoll_ctl it takes: the flag may be wrong once. */
  function CallsNeeded(v: Mem, fd: Fd): nat {
    if v.D(fd).isInEpoll == v.D(fd).registered then 1 else 2
  }

  /** The value when some call of epoll_ctl is refused: all that may have changed is a wrong flag. */
  function Refused(v: Mem, fd: Fd, refusedAt: nat): Mem {
    var d := v.D(fd);
    v.SetD(fd, d.(isInEpoll := if refusedAt == 0 then d.isInEpoll else d.registered))
  }

  /** The calls of epoll_ctl: MOD fails with ENOENT on a descriptor that epoll does not know, ADD with
      EEXIST on one that it knows, and either corrects the flag and tries again.  Call number
      `refusedAt`, if there is one, fails with some other error, and the descriptor stays as it is. */
  method EpollCtl(g: Melon, fd: Fd, read: bool, write: bool, refusedAt: nat) returns (ok: bool)
    requires g.Valid() && fd in g.io
    modifies g.io.Values`isInEpoll, g.io.Values`epoll
    ensures g.Valid() && (ok <==> CallsNeeded(old(g.View()), fd) <= refusedAt)
    ensures
      var v := old(g.View());
      g.View() == if ok then v.SetD(fd, Regions.Arm(v.D(fd), read, write).(isInEpoll := true))
          else Refused(v, fd, refusedAt)
  {
    hide Melon.Valid, Melon.View;
    ghost var v := g.View();
    g.KnownFd(fd);
    SetTwice(v);
    var d := g.io[fd];
    g.FdRead(d);
    g.KnownIo(fd);
    var calls := 0;
    while calls < refusedAt && d.isInEpoll != d.epoll.registered
      invariant g.Valid() && g.View() == v.SetD(fd, WithEpoll(v.D(fd), d.isInEpoll, d.epoll)) && fd in v.fds
      invariant d.epoll == old(g.io[fd].epoll) && calls <= 1 && calls <= refusedAt
      invariant d.isInEpoll == if calls == 0 then v.D(fd).isInEpoll else d.epoll.registered
      invariant calls == 1 ==> CallsNeeded(v, fd) == 2
      decreases refusedAt - calls
    {
      g.SetFd(d, d.epoll.registered, d.epoll);
      calls := calls + 1;
    }
    if calls == refusedAt {
      return false;
    }
    g.SetFd(d, true, Armed(d.epoll, read, write));
    return true;
  }

  /** The value once the descriptor is armed and the fiber is about to join a queue. */
  function Prepared(v: Mem, f: FiberId, fd: Fd, events: Events): Mem {
    var read, write := v.D(fd).readQueue != [] || events.read, v.D(fd).writeQueue != [] || events.write;
    var fiber := v.F(f).(waitedEvent := events, ioCanceled := false);
    v.SetD(fd, Regions.Arm(v.D(fd), read, write).(isInEpoll := true)).SetF(f, fiber)
  }

  lemma ParkedIs(v: Mem, f: FiberId, fd: Fd, events: Events)
    ensures
      var dir, p := if events.read then Read else Write, Prepared(v, f, fd, events);
      Parked(v, f, fd, events) == p.SetQueue(FdQueue(fd, dir), p.Queue(FdQueue(fd, dir)) + [f])
  {
    SetTwice(v);
  }

  method Prepare(g: Melon, self: Fiber, fd: Fd, events: Events, refusedAt: nat) returns (ok: bool)
    requires g.Valid() && self in g.fibers.Values && fd in g.io
    modifies g.io.Values`isInEpoll, g.io.Values`epoll, self`waitedEvent, self`ioCanceled
    ensures g.Valid() && (ok <==> CallsNeeded(old(g.View()), fd) <= refusedAt)
    ensures
      var v := old(g.View());
      g.View() == if ok then Prepared(v, self.id, fd, events) else Refused(v, fd, refusedAt)
  {
    hide Melon.Valid, Melon.View, CallsNeeded, Refused;
    var d := g.io[fd];
    g.KnownFd(fd);
    g.FdRead(d);
    ok := EpollCtl(g, fd, d.readQueue != null || events.read, d.writeQueue != null || events.write, refusedAt);
    if ok {
      g.SetWaited(self, events);
    }
  }

  /** melon_io_manager_waitfor, until the fiber is in the queue. */
  method Park(g: Melon, self: Fiber, fd: Fd, events: Events, refusedAt: nat) returns (ok: bool)
    requires g.Valid() && g.Free(self) && fd in g.io && (events.read || events.write)
    modifies g`queues, g`places, g.fibers.Values, g.mutexes.Values, g.conds.Values, g.io.Values
    ensures g.Valid() && (ok <==> CallsNeeded(old(g.View()), fd) <= refusedAt)
    ensures
      var v := old(g.View());
      g.View() == if ok then Parked(v, self.id, fd, events) else Refused(v, fd, refusedAt)
  {
    hide Melon.Valid, Melon.View, Melon.Free, Melon.StraysKept, Parked, Prepared, CallsNeeded, Refused;
    ParkedIs(g.View(), self.id, fd, events);
    g.FreeParts(self);
    g.KnownFd(fd);
    ok := Prepare(g, self, fd, events, refusedAt);
    if ok {
      var dir := if events.read then Read else Write;
      g.Enqueue(FdHead(g.io[fd], dir), self);
    }
  }

  /** melon_io_manager_waitfor until it calls melon_sched_next; the result says that the fiber was queued,
      and not sent back because call number `refusedAt` of epoll_ctl failed. */
  method Waitfor(g: Melon, self: Fiber, fd: Fd, events: Events, timeout: int, refusedAt: nat) returns (queued: bool)
    requires g.Valid() && g.Free(self) && fd in g.io && self.id !in g.View().timerQueue
    requires Regions.Waitfor(g.View(), self.id, fd, events, timeout).Ok?
    modifies g`queues, g`places, g`timers, g`timerQueue, g`timerThread
    modifies g.fibers.Values, g.mutexes.Values, g.conds.Values, g.io.Values
    ensures g.Valid() && (queued <==> CallsNeeded(old(g.View()), fd) <= refusedAt)
    ensures queued ==> Regions.Waitfor(old(g.View()), self.id, fd, events, timeout) == Ok(g.View())
    ensures queued ==> self.timer == if timeout > 0 then timeout else 0
    ensures !queued ==> g.View() == Refused(old(g.View()), fd, refusedAt)
  {
    hide Melon.Valid, Melon.View, Melon.Free, Regions.TimerPush, CallsNeeded, Refused;
    assert events.read || events.write;
    WaitforIs(g.View(), self.id, fd, events, timeout);
    g.FreeParts(self);
    queued := Park(g, self, fd, events, refusedAt);
    if !queued {
      return;
    }
    hide Regions.Waitfor;
    if timeout > 0 {
      g.StartTimer(self, timeout, WaitforCb(fd), false);
    } else {
      g.SetTimer(self, 0);
    }
  }

  lemma WaitforCbIs(v: Mem, f: FiberId, fd: Fd)
    requires Regions.WaitforCb(v, f, fd).Ok?
    ensures
      var events := v.F(f).waitedEvent;
      var v1 := v.SetF(f, v.F(f).(timeout := true));
      Regions.WaitforCb(v, f, fd) ==
      Ok(Regions.SchedReady(
           if events.read then v1.SetQueue(FdQueue(fd, Read), Without(v1.D(fd).readQueue, f))
           else if events.write then v1.SetQueue(FdQueue(fd, Write), Without(v1.D(fd).writeQueue, f))
           else v1, f))
    ensures v.F(f).waitedEvent.read ==> f in v.D(fd).readQueue
    ensures !v.F(f).waitedEvent.read && v.F(f).waitedEvent.write ==> f in v.D(fd).writeQueue
  {
    hide Regions.SchedReady;
  }

  /** waitfor_cb. */
  method WaitforExpired(g: Melon, fiber: Fiber, fd: Fd)
    requires g.Valid() && fiber in g.fibers.Values && fd in g.io
    requires !fiber.waitedEvent.read && !fiber.waitedEvent.write ==> g.Free(fiber)
    requires Regions.WaitforCb(g.View(), fiber.id, fd).Ok?
    modifies g`ready, g`queues, g`places, g.fibers.Values`next, g.fibers.Values`prev, fiber`timeout, fiber`waitedEvent
    modifies g.mutexes.Values`lockQueue, g.conds.Values`waitQueue, g.io.Values`readQueue, g.io.Values`writeQueue
    ensures g.Valid() && Regions.WaitforCb(old(g.View()), fiber.id, fd) == Ok(g.View())
    ensures g.places.Keys == old(g.places).Keys + {fiber}
  {
    hide Melon.Valid, Melon.View, Melon.Free, Melon.StraysKept, Regions.WaitforCb, Regions.SchedReady;
    WaitforCbIs(g.View(), fiber.id, fd);
    g.KnownFd(fd);
    g.SetTimeout(fiber);
    g.FiberRead(fiber);
    if fiber.waitedEvent.read {
      g.Dequeue(FdHead(g.io[fd], Read), fiber);
    } else if fiber.waitedEvent.write {
      g.Dequeue(FdHead(g.io[fd], Write), fiber);
    }
    g.SchedReady(fiber);
  }

  /** A pop with melon_io_manager_release_fiber, or one round of melon_close_flush_queue. */
  method ReleaseOne(g: Melon, fd: Fd, dir: Direction, cancel: bool) returns (fiber: Fiber?)
    requires g.Valid() && fd in g.io && Regions.ReleaseOne(g.View(), fd, dir, cancel).Ok?
    modifies g`ready, g`queues, g`places, g`timers, g`timerQueue
    modifies g.fibers.Values, g.mutexes.Values, g.conds.Values, g.io.Values
    ensures g.Valid() && Regions.ReleaseOne(old(g.View()), fd, dir, cancel) == Ok(g.View())
    ensures fiber == null <==> old(g.View()).D(fd).Queue(dir) == []
  {
    hide Melon.Valid, Melon.View, Melon.Free, Melon.StraysKept, Regions.CancelTimer;
    SetTwice(g.View());
    g.KnownFd(fd);
    fiber := g.Pop(FdHead(g.io[fd], dir));
    if fiber == null {
      return;
    }
    g.CancelTimer(fiber);
    NotCanceled(g.View(), fiber.id);
    if cancel {
      g.SetCanceled(fiber);
    }
    g.SchedReady(fiber);
  }

  lemma NotCanceled(v: Mem, f: FiberId)
    ensures Regions.SchedReady(v.SetF(f, v.F(f).(ioCanceled := v.F(f).ioCanceled || false)), f)
        == Regions.SchedReady(v, f)
  {
    assert v.fibers[f := v.F(f)][f := v.F(f).(waitedEvent := NO_EVENT)]
        == v.fibers[f := v.F(f).(waitedEvent := NO_EVENT)];
  }

  /** RELEASE_LOOP, and melon_close_flush_queue. */
  method Flush(g: Melon, fd: Fd, dir: Direction, cancel: bool)
    requires g.Valid() && fd in g.io && Regions.Flush(g.View(), fd, dir, cancel).Ok?
    modifies g`ready, g`queues, g`places, g`timers, g`timerQueue
    modifies g.fibers.Values, g.mutexes.Values, g.conds.Values, g.io.Values
    ensures g.Valid() && Regions.Flush(old(g.View()), fd, dir, cancel) == Ok(g.View())
  {
    hide Melon.Valid, Melon.View, Regions.ReleaseOne;
    while true
      invariant g.Valid() && Regions.Flush(g.View(), fd, dir, cancel) == Regions.Flush(old(g.View()), fd, dir, cancel)
      decreases |g.View().D(fd).Queue(dir)|
    {
      FlushStep(g.View(), fd, dir, cancel);
      var fiber := ReleaseOne(g, fd, dir, cancel);
      if fiber == null {
        break;
      }
    }
  }

  lemma FlushStep(v: Mem, fd: Fd, dir: Direction, cancel: bool)
    requires Regions.Flush(v, fd, dir, cancel).Ok?
    ensures Regions.ReleaseOne(v, fd, dir, cancel).Ok?
    ensures v.D(fd).Queue(dir) != [] ==>
              var v1 := Regions.ReleaseOne(v, fd, dir, cancel).value;
              && Regions.Flush(v1, fd, dir, cancel) == Regions.Flush(v, fd, dir, cancel)
              && |v1.D(fd).Queue(dir)| < |v.D(fd).Queue(dir)|
    ensures v.D(fd).Queue(dir) == [] ==>
        Regions.ReleaseOne(v, fd, dir, cancel) == Ok(v) && Regions.Flush(v, fd, dir, cancel) == Ok(v)
  {
    if v.D(fd).Queue(dir) != [] { Regions.ReleaseShrinks(v, fd, dir, cancel); }
  }

  method FlushAll(g: Melon, fd: Fd, cancel: bool)
    requires g.Valid() && fd in g.io && Regions.FlushAll(g.View(), fd, cancel).Ok?
    modifies g`ready, g`queues, g`places, g`timers, g`timerQueue
    modifies g.fibers.Values, g.mutexes.Values, g.conds.Values, g.io.Values
    ensures g.Valid() && Regions.FlushAll(old(g.View()), fd, cancel) == Ok(g.View())
  {
    hide Melon.Valid, Melon.View, Regions.Flush;
    Flush(g, fd, Read, cancel);
    Flush(g, fd, Write, cancel);
  }

  lemma ReleaseQueues(v: Mem, fd: Fd, dir: Direction, cancel: bool)
    requires Regions.ReleaseOne(v, fd, dir, cancel).Ok?
    ensures
      var q, v' := v.D(fd).Queue(dir), Regions.ReleaseOne(v, fd, dir, cancel).value;
      && v'.D(fd) == v.D(fd).WithQueue(dir, if q == [] then [] else q[1..])
      && v'.ready == v.ready + First(q)
  {
  }

  /** The first `k` fibers of a queue have gone to the ready list, and the other queue is as it was. */
  ghost predicate Gone(v: Mem, fd: Fd, dir: Direction, gone: seq<FiberId>, v': Mem) {
    && v.D(fd).Queue(dir) == gone + v'.D(fd).Queue(dir) && v'.ready == v.ready + gone
    && forall other: Direction :: other != dir ==> v'.D(fd).Queue(other) == v.D(fd).Queue(other)
  }

  lemma GoneFirst(v: Mem, fd: Fd, dir: Direction, cancel: bool)
    requires Regions.ReleaseOne(v, fd, dir, cancel).Ok?
    ensures Gone(v, fd, dir, First(v.D(fd).Queue(dir)), Regions.ReleaseOne(v, fd, dir, cancel).value)
  {
    ReleaseQueues(v, fd, dir, cancel);
    hide Regions.ReleaseOne;
  }

  lemma GoneTwice(v: Mem, fd: Fd, dir: Direction, p: seq<FiberId>, v1: Mem, q: seq<FiberId>, v': Mem)
    requires Gone(v, fd, dir, p, v1) && Gone(v1, fd, dir, q, v')
    ensures Gone(v, fd, dir, p + q, v')
  {
    hide Mem.D;
    assert v.ready + p + q == v.ready + (p + q);
    forall other: Direction | other != dir ensures v'.D(fd).Queue(other) == v.D(fd).Queue(other) {
      assert v1.D(fd).Queue(other) == v.D(fd).Queue(other);
    }
  }

  lemma {:induction false} FlushQueues(v: Mem, fd: Fd, dir: Direction, cancel: bool)
    requires Regions.Flush(v, fd, dir, cancel).Ok?
    ensures Gone(v, fd, dir, v.D(fd).Queue(dir), Regions.Flush(v, fd, dir, cancel).value)
    ensures Regions.Flush(v, fd, dir, cancel).value.D(fd).Queue(dir) == []
    decreases |v.D(fd).Queue(dir)|
  {
    hide Regions.ReleaseOne, Gone;
    var q := v.D(fd).Queue(dir);
    if q != [] {
      var v1 := Regions.ReleaseOne(v, fd, dir, cancel).value;
      Regions.ReleaseShrinks(v, fd, dir, cancel);
      GoneFirst(v, fd, dir, cancel);
      FlushQueues(v1, fd, dir, cancel);
      GoneTwice(v, fd, dir, [q[0]], v1, q[1..], Regions.Flush(v, fd, dir, cancel).value);
      assert q == [q[0]] + q[1..];
    } else {
      assert Gone(v, fd, dir, [], v) by { NobodyGone(v, fd, dir); }
    }
  }

  lemma NobodyGone(v: Mem, fd: Fd, dir: Direction)
    ensures Gone(v, fd, dir, [], v)
  {
  }

  /** One direction of an event that is not a hang-up. */
  lemma EventQueues(v: Mem, fd: Fd, dir: Direction, happened: bool)
    requires happened ==> Regions.ReleaseOne(v, fd, dir, false).Ok?
    ensures
      Gone(v, fd, dir, Awaited(v.D(fd).Queue(dir), false, happened),
           if happened then Regions.ReleaseOne(v, fd, dir, false).value else v)
  {
    hide Regions.ReleaseOne, Gone;
    if happened { GoneFirst(v, fd, dir, false); } else { NobodyGone(v, fd, dir); }
  }

  lemma FlushedQueues(v: Mem, fd: Fd)
    requires Regions.FlushAll(v, fd, false).Ok?
    ensures
      var v' := Regions.FlushAll(v, fd, false).value;
      && v'.D(fd).readQueue == [] && v'.D(fd).writeQueue == []
      && v'.ready == v.ready + v.D(fd).readQueue + v.D(fd).writeQueue
  {
    hide Regions.Flush;
    FlushQueues(v, fd, Read, false);
    FlushQueues(Regions.Flush(v, fd, Read, false).value, fd, Write, false);
    assert forall d: Descriptor :: d.Queue(Read) == d.readQueue && d.Queue(Write) == d.writeQueue;
  }

  /** An event wakes readers and writers as the code says: everybody, or the first of a direction. */
  lemma HandleQueues(v: Mem, fd: Fd, event: EpollEvent)
    requires Regions.Handle(v, fd, event).Ok?
    ensures
      var v' := Regions.Handle(v, fd, event).value;
      var readers := Awaited(v.D(fd).readQueue, event.hup, event.readable);
      var writers := Awaited(v.D(fd).writeQueue, event.hup, event.writable);
      && v.D(fd).readQueue == readers + v'.D(fd).readQueue && v.D(fd).writeQueue == writers + v'.D(fd).writeQueue
      && v'.ready == v.ready + readers + writers
  {
    hide Regions.ReleaseOne, Regions.FlushAll, Regions.Rearm;
    var v1 := if event.hup then Regions.FlushAll(v, fd, false).value else v;
    if event.hup { FlushedQueues(v, fd); }
    EventQueues(v1, fd, Read, event.readable);
    var v2 := if event.readable then Regions.ReleaseOne(v1, fd, Read, false).value else v1;
    EventQueues(v2, fd, Write, event.writable);
    var v3 := if event.writable then Regions.ReleaseOne(v2, fd, Write, false).value else v2;
    EventEnds(v1, fd, event, v2, v3);
    RearmQueues(v3, fd);
  }

  lemma EventEnds(v1: Mem, fd: Fd, event: EpollEvent, v2: Mem, v3: Mem)
    requires Gone(v1, fd, Read, Awaited(v1.D(fd).readQueue, false, event.readable), v2)
    requires Gone(v2, fd, Write, Awaited(v2.D(fd).writeQueue, false, event.writable), v3)
    ensures
      var readers := Awaited(v1.D(fd).readQueue, false, event.readable);
      var writers := Awaited(v1.D(fd).writeQueue, false, event.writable);
      && v1.D(fd).readQueue == readers + v3.D(fd).readQueue && v1.D(fd).writeQueue == writers + v3.D(fd).writeQueue
      && v3.ready == v1.ready + readers + writers
  {
    hide Mem.D;
    assert v2.D(fd).Queue(Write) == v1.D(fd).Queue(Write) && v3.D(fd).Queue(Read) == v2.D(fd).Queue(Read);
  }

  lemma RearmQueues(v: Mem, fd: Fd)
    ensures
      var v' := Regions.Rearm(v, fd);
      v'.ready == v.ready && v'.D(fd).readQueue == v.D(fd).readQueue && v'.D(fd).writeQueue == v.D(fd).writeQueue
  {
  }

  /** melon_io_manager_handle. */
  method Handle(g: Melon, fd: Fd, event: EpollEvent)
    requires g.Valid() && fd in g.io && Regions.Handle(g.View(), fd, event).Ok?
    modifies g`ready, g`queues, g`places, g`timers, g`timerQueue
    modifies g.fibers.Values, g.mutexes.Values, g.conds.Values, g.io.Values
    ensures g.Valid() && Regions.Handle(old(g.View()), fd, event) == Ok(g.View())
    ensures
      var v, v' := old(g.View()), g.View();
      var readers := Awaited(v.D(fd).readQueue, event.hup, event.readable);
      var writers := Awaited(v.D(fd).writeQueue, event.hup, event.writable);
      && v.D(fd).readQueue == readers + v'.D(fd).readQueue && v.D(fd).writeQueue == writers + v'.D(fd).writeQueue
      && v'.ready == v.ready + readers + writers
  {
    hide Melon.Valid, Melon.View, Regions.FlushAll, Regions.ReleaseOne, Regions.Rearm;
    HandleQueues(g.View(), fd, event);
    if event.hup {
      FlushAll(g, fd, false);
    }
    if event.readable {
      var _ := ReleaseOne(g, fd, Read, false);
    }
    if event.writable {
      var _ := ReleaseOne(g, fd, Write, false);
    }
    Rearm(g, fd);
  }

  /** The end of melon_io_manager_handle; epoll_ctl with MOD fails on a descriptor that epoll does
      not know. */
  method Rearm(g: Melon, fd: Fd)
    requires g.Valid() && fd in g.io
    modifies g.io.Values
    ensures g.Valid() && g.View() == Regions.Rearm(old(g.View()), fd)
  {
    hide Melon.Valid, Melon.View;
    SetTwice(g.View());
    g.KnownFd(fd);
    var d := g.io[fd];
    g.FdRead(d);
    var epoll := d.epoll.(pending := None);
    if (d.readQueue != null || d.writeQueue != null) && epoll.registered {
      g.SetFd(d, d.isInEpoll, Armed(epoll, d.readQueue != null, d.writeQueue != null));
    } else {
      g.SetFd(d, d.isInEpoll, epoll);
    }
  }

  /** melon_close; `closes` says whether close(2) succeeds. */
  method Close(g: Melon, fd: Fd, closes: bool) returns (ret: int)
    requires g.Valid() && fd in g.io && Regions.Close(g.View(), fd, closes).Ok?
    modifies g`ready, g`queues, g`places, g`timers, g`timerQueue
    modifies g.fibers.Values, g.mutexes.Values, g.conds.Values, g.io.Values
    ensures g.Valid() && Regions.Close(old(g.View()), fd, closes) == Ok(g.View())
    ensures ret == if closes then 0 else -1
  {
    hide Melon.Valid, Melon.View, Regions.FlushAll;
    FlushAll(g, fd, true);
    SetTwice(g.View());
    g.KnownFd(fd);
    var d := g.io[fd];
    g.FdRead(d);
    if closes {
      g.SetFd(d, false, d.epoll.(registered := false, armed := false, armedRead := false, armedWrite := false));
      return 0;
    } else {
      g.SetFd(d, false, d.epoll);
      return -1;
    }
  }

  // ---- The kernel ---------------------------------------------------------------------------

  /** epoll_wait returns an event of a one-shot descriptor. */
  method Deliver(g: Melon, fd: Fd, event: EpollEvent)
    requires g.Valid() && fd in g.io
    modifies g.io.Values`isInEpoll, g.io.Values`epoll
    ensures g.Valid() && g.View() == Regions.Deliver(old(g.View()), fd, event)
  {
    hide Melon.Valid, Melon.View;
    g.KnownFd(fd);
    var d := g.io[fd];
    g.FdRead(d);
    g.SetFd(d, d.isInEpoll, d.epoll.(armed := false, armedRead := false, armedWrite := false, pending := Some(event)));
  }

  /** close(2) without melon_close. */
  method RawClose(g: Melon, fd: Fd)
    requires g.Valid() && fd in g.io
    modifies g.io.Values`isInEpoll, g.io.Values`epoll
    ensures g.Valid() && g.View() == Regions.KernelClose(old(g.View()), fd)
  {
    hide Melon.Valid, Melon.View;
    g.KnownFd(fd);
    var d := g.io[fd];
    g.FdRead(d);
    g.SetFd(d, d.isInEpoll, d.epoll.(registered := false, armed := false, armedRead := false, armedWrite := false));
  }
}

/** The steps of src/io_manager_epoll.c, src/io.c and src/timer_manager.c keep the invariant. */
module PreserveIo {
  import opened Memory
  import opened Machine
  import opened Invariant
  import Regions

  /** The descriptors, when only `fd` has changed. */
  lemma OtherFdsKept(w: World, w': World, fd: Fd)
    requires Inv(w)
    requires forall e: Fd :: e != fd ==> w'.mem.D(e) == w.mem.D(e)
    requires NoLostWakeup(w'.mem, fd, Read) && NoLostWakeup(w'.mem, fd, Write)
    ensures forall e: Fd, dir: Direction :: NoLostWakeup(w'.mem, e, dir)
  {
    hide Inv;
    forall e: Fd, dir: Direction ensures NoLostWakeup(w'.mem, e, dir) {
      FdPart(w, e);
      assert e != fd ==> w'.mem.D(e) == w.mem.D(e);
    }
  }

  // ---- One fiber leaves a descriptor's queue ------------------------------------------------

  lemma PopHead(w: World, fd: Fd, dir: Direction, x: FiberId)
    requires Places(w) && w.mem.D(fd).Queue(dir) != [] && x == w.mem.D(fd).Queue(dir)[0]
    ensures w.Ctl(x).Polling? && w.Ctl(x).fd == fd && w.Ctl(x).dir == dir
  {
    assert x in w.mem.Queue(FdQueue(fd, dir));
  }

  /** `x` is popped from a queue of `fd`. */
  ghost predicate Pops(w: World, fd: Fd, dir: Direction, cancel: bool, x: FiberId, w': World) {
    && w.mem.D(fd).Queue(dir) != [] && x == w.mem.D(fd).Queue(dir)[0]
    && PopOne(w, fd, dir, cancel) == Ok(w')
  }

  /** The fiber at the head of a descriptor's queue. */
  ghost predicate PollsAt(w: World, fd: Fd, dir: Direction, x: FiberId) {
    w.Ctl(x).Polling? && w.Ctl(x).fd == fd && w.Ctl(x).dir == dir && FiberOk(w, x)
  }

  lemma PopMemory(w: World, fd: Fd, dir: Direction, cancel: bool, x: FiberId, w': World)
    requires Pops(w, fd, dir, cancel, x, w')
    ensures w'.mem.ready == w.mem.ready + [x]
    ensures w'.mem.mutexes == w.mem.mutexes && w'.mem.conds == w.mem.conds && w'.big == w.big
    ensures w'.mem.D(fd) == w.mem.D(fd).WithQueue(dir, w.mem.D(fd).Queue(dir)[1..])
    ensures forall e: Fd :: e != fd ==> w'.mem.D(e) == w.mem.D(e)
  {
  }

  lemma PopQueue(w: World, fd: Fd, dir: Direction, cancel: bool, x: FiberId, w': World, q: QueueId)
    requires Pops(w, fd, dir, cancel, x, w')
    ensures w'.mem.Queue(q) == Moved(w.mem.Queue(q), q, x, Some(FdQueue(fd, dir)), Some(ReadyQueue))
  {
    PopMemory(w, fd, dir, cancel, x, w');
    WithoutHead(w.mem.D(fd).Queue(dir));
    hide Pops;
    match q
    case ReadyQueue =>
    case LockQueue(m) =>
    case WaitQueue(c) =>
    case FdQueue(e, d) =>
  }

  lemma PopControl(w: World, fd: Fd, dir: Direction, cancel: bool, x: FiberId, w': World)
    requires Pops(w, fd, dir, cancel, x, w') && PollsAt(w, fd, dir, x)
    ensures w'.Ctl(x).Runnable? && w'.Ctl(x).from.FromWaitfor? && PlaceOf(w.Ctl(x)) == Some(FdQueue(fd, dir))
    ensures forall y: FiberId :: y != x ==> w'.Ctl(y) == w.Ctl(y)
  {
  }

  lemma PopPlaces(w: World, fd: Fd, dir: Direction, cancel: bool, x: FiberId, w': World)
    requires Places(w) && Pops(w, fd, dir, cancel, x, w') && PollsAt(w, fd, dir, x)
    ensures Places(w')
  {
    hide Places, Pops, PollsAt;
    PopControl(w, fd, dir, cancel, x, w');
    forall q: QueueId
      ensures w'.mem.Queue(q) == Moved(w.mem.Queue(q), q, x, Some(FdQueue(fd, dir)), Some(ReadyQueue))
    {
      PopQueue(w, fd, dir, cancel, x, w', q);
    }
    PlacesMove(w, w', x);
  }

  lemma PopTimers(w: World, fd: Fd, dir: Direction, cancel: bool, x: FiberId, w': World)
    requires Timers(w) && Pops(w, fd, dir, cancel, x, w') && PollsAt(w, fd, dir, x)
    ensures Timers(w')
  {
    if InTimers(w.Ctl(x)) {
      TimersRemove(w, w', x);
    } else {
      TimersKept(w, w');
    }
  }

  lemma PopSelf(w: World, fd: Fd, dir: Direction, cancel: bool, x: FiberId, w': World)
    requires Pops(w, fd, dir, cancel, x, w') && PollsAt(w, fd, dir, x)
    ensures FiberOk(w', x)
  {
  }

  lemma PopOthers(w: World, fd: Fd, dir: Direction, cancel: bool, x: FiberId, w': World)
    requires Pops(w, fd, dir, cancel, x, w')
    ensures forall y: FiberId :: y != x ==> Untouched(w, w', y)
  {
  }

  lemma PopFds(w: World, fd: Fd, dir: Direction, w': World)
    requires w.mem.D(fd).Queue(dir) != []
    requires w'.mem.D(fd) == w.mem.D(fd).WithQueue(dir, w.mem.D(fd).Queue(dir)[1..])
    requires NoLostWakeup(w.mem, fd, Read) && NoLostWakeup(w.mem, fd, Write)
    ensures NoLostWakeup(w'.mem, fd, Read) && NoLostWakeup(w'.mem, fd, Write)
  {
  }

  lemma PopKeeps(w: World, fd: Fd, dir: Direction, cancel: bool, w': World)
    requires Inv(w) && PopOne(w, fd, dir, cancel) == Ok(w')
    ensures Inv(w')
    ensures w'.mem.D(fd) == w.mem.D(fd).WithQueue(dir, Tail(w.mem.D(fd).Queue(dir)))
    ensures w'.big == w.big
  {
    hide Inv, Places, Timers, FiberOk, MutexOk, NoLostWakeup, Untouched;
    if w.mem.D(fd).Queue(dir) != [] {
      var x := w.mem.D(fd).Queue(dir)[0];
      QueueParts(w);
      PopHead(w, fd, dir, x);
      FiberPart(w, x);
      FdPart(w, fd);
      PopPlaces(w, fd, dir, cancel, x, w');
      PopTimers(w, fd, dir, cancel, x, w');
      PopSelf(w, fd, dir, cancel, x, w');
      PopOthers(w, fd, dir, cancel, x, w');
      PopMemory(w, fd, dir, cancel, x, w');
      PopFds(w, fd, dir, w');
      MutexesSame(w, w', x);
      OtherFdsKept(w, w', fd);
      Assemble(w, w', x, x);
    }
  }

  /** Nothing that mutexes and conditions are made of changes. */
  ghost predicate LocksLeft(w: World, w': World) {
    && w'.mem.mutexes == w.mem.mutexes && w'.mem.conds == w.mem.conds
    && forall x: FiberId :: w'.mem.F(x).lockCount == w.mem.F(x).lockCount
  }

  lemma PopLeavesMutexes(w: World, fd: Fd, dir: Direction, cancel: bool, w': World)
    requires PopOne(w, fd, dir, cancel) == Ok(w')
    ensures LocksLeft(w, w')
  {
    if w.mem.D(fd).Queue(dir) != [] {
      PopMemory(w, fd, dir, cancel, w.mem.D(fd).Queue(dir)[0], w');
    }
  }

  lemma {:induction false} FlushLeavesMutexes(w: World, fd: Fd, dir: Direction, cancel: bool, w': World)
    requires FlushOne(w, fd, dir, cancel) == Ok(w')
    ensures LocksLeft(w, w')
    decreases |w.mem.D(fd).Queue(dir)|
  {
    hide PopOne, LocksLeft;
    if w.mem.D(fd).Queue(dir) != [] {
      var w1 := PopOne(w, fd, dir, cancel).value;
      PopLeavesMutexes(w, fd, dir, cancel, w1);
      PopShrinks(w, fd, dir, cancel, w1);
      FlushLeavesMutexes(w1, fd, dir, cancel, w');
      LeftTwice(w, w1, w');
    } else {
      LeftTwice(w, w, w);
    }
  }

  lemma PopShrinks(w: World, fd: Fd, dir: Direction, cancel: bool, w': World)
    requires w.mem.D(fd).Queue(dir) != [] && PopOne(w, fd, dir, cancel) == Ok(w')
    ensures |w'.mem.D(fd).Queue(dir)| < |w.mem.D(fd).Queue(dir)|
  {
    Regions.ReleaseShrinks(w.mem, fd, dir, cancel);
  }

  lemma LeftTwice(w: World, w1: World, w': World)
    ensures LocksLeft(w, w1) && LocksLeft(w1, w') ==> LocksLeft(w, w')
    ensures LocksLeft(w, w)
  {
  }

  lemma FlushBothLeavesMutexes(w: World, fd: Fd, cancel: bool, w': World)
    requires FlushBoth(w, fd, cancel) == Ok(w')
    ensures LocksLeft(w, w')
  {
    hide FlushOne;
    var w1 := FlushOne(w, fd, Read, cancel).value;
    FlushLeavesMutexes(w, fd, Read, cancel, w1);
    FlushLeavesMutexes(w1, fd, Write, cancel, w');
  }

  lemma HandleLeavesMutexes(w: World, fd: Fd, w': World)
    requires w.mem.D(fd).pending.Some? && DoHandle(w, fd) == Ok(w')
    ensures LocksLeft(w, w')
  {
    hide FlushBoth, PopOne;
    var event := w.mem.D(fd).pending.value;
    var w1 := if event.hup then FlushBoth(w, fd, false).value else w;
    if event.hup { FlushBothLeavesMutexes(w, fd, false, w1); }
    var w2 := if event.readable then PopOne(w1, fd, Read, false).value else w1;
    if event.readable { PopLeavesMutexes(w1, fd, Read, false, w2); }
    var w3 := if event.writable then PopOne(w2, fd, Write, false).value else w2;
    if event.writable { PopLeavesMutexes(w2, fd, Write, false, w3); }
  }

  function Tail(q: seq<FiberId>): seq<FiberId> {
    if q == [] then [] else q[1..]
  }

  lemma {:induction false} FlushKeeps(w: World, fd: Fd, dir: Direction, cancel: bool, w': World)
    requires Inv(w) && FlushOne(w, fd, dir, cancel) == Ok(w')
    ensures Inv(w')
    ensures w'.mem.D(fd) == w.mem.D(fd).WithQueue(dir, [])
    ensures w'.big == w.big
    decreases |w.mem.D(fd).Queue(dir)|
  {
    hide Inv;
    if w.mem.D(fd).Queue(dir) != [] {
      var w1 := PopOne(w, fd, dir, cancel).value;
      PopKeeps(w, fd, dir, cancel, w1);
      FlushKeeps(w1, fd, dir, cancel, w');
    }
  }

  lemma FlushBothKeeps(w: World, fd: Fd, cancel: bool, w': World)
    requires Inv(w) && FlushBoth(w, fd, cancel) == Ok(w')
    ensures Inv(w')
    ensures w'.mem.D(fd) == w.mem.D(fd).(readQueue := [], writeQueue := [])
    ensures w'.big == w.big
  {
    hide Inv;
    var w1 := FlushOne(w, fd, Read, cancel).value;
    FlushKeeps(w, fd, Read, cancel, w1);
    FlushKeeps(w1, fd, Write, cancel, w');
  }

  // ---- Steps that change nothing but one descriptor -----------------------------------------

  lemma FdChangeKeeps(w: World, w': World, fd: Fd, d: Descriptor)
    requires Inv(w) && w' == w.(mem := w.mem.SetD(fd, d))
    requires d.readQueue == w.mem.D(fd).readQueue && d.writeQueue == w.mem.D(fd).writeQueue
    requires NoLostWakeup(w'.mem, fd, Read) && NoLostWakeup(w'.mem, fd, Write)
    ensures Inv(w')
  {
    QueueParts(w);
    TimersKept(w, w');
    hide Inv, Places, Timers, NoLostWakeup;
    OtherFdsKept(w, w', fd);
    assert forall e: Fd, dir: Direction :: w'.mem.D(e).Queue(dir) == w.mem.D(e).Queue(dir);
    NobodyMoves(w, w');
  }

  lemma CloseKeeps(w: World, fd: Fd, closes: bool, w': World)
    requires Inv(w) && DoClose(w, fd, closes) == Ok(w')
    ensures Inv(w')
  {
    hide Inv;
    var w1 := FlushBoth(w, fd, true).value;
    FlushBothKeeps(w, fd, true, w1);
    assert w'.mem.fds == w1.mem.fds[fd := w'.mem.D(fd)];
    FdChangeKeeps(w1, w', fd, w'.mem.D(fd));
  }

  lemma RearmKeeps(w: World, fd: Fd)
    requires Inv(w)
    ensures Inv(w.(mem := Regions.Rearm(w.mem, fd)))
  {
    hide Inv;
    var w' := w.(mem := Regions.Rearm(w.mem, fd));
    FdPart(w, fd);
    FdChangeKeeps(w, w', fd, w'.mem.D(fd));
  }

  lemma HandleKeeps(w: World, fd: Fd, w': World)
    requires Inv(w) && w.mem.D(fd).pending.Some? && DoHandle(w, fd) == Ok(w')
    ensures Inv(w')
  {
    hide Inv;
    var event := w.mem.D(fd).pending.value;
    var w1 := if event.hup then FlushBoth(w, fd, false).value else w;
    if event.hup { FlushBothKeeps(w, fd, false, w1); }
    var w2 := if event.readable then PopOne(w1, fd, Read, false).value else w1;
    if event.readable { PopKeeps(w1, fd, Read, false, w2); }
    var w3 := if event.writable then PopOne(w2, fd, Write, false).value else w2;
    if event.writable { PopKeeps(w2, fd, Write, false, w3); }
    RearmKeeps(w3, fd);
  }

  lemma DeliverKeeps(w: World, fd: Fd, event: EpollEvent, w': World)
    requires Inv(w) && w.mem.D(fd).registered && w' == w.(mem := Regions.Deliver(w.mem, fd, event))
    ensures Inv(w')
  {
    hide Inv;
    FdPart(w, fd);
    FdChangeKeeps(w, w', fd, w'.mem.D(fd));
  }

  lemma RawCloseKeeps(w: World, fd: Fd, w': World)
    requires Inv(w) && w' == w.(mem := Regions.KernelClose(w.mem, fd))
    requires w.mem.D(fd).readQueue == [] && w.mem.D(fd).writeQueue == []
    ensures Inv(w')
  {
    hide Inv;
    FdPart(w, fd);
    FdChangeKeeps(w, w', fd, w'.mem.D(fd));
  }

  // ---- melon_io_manager_waitfor -------------------------------------------------------------

  lemma WaitforMemory(w: World, f: FiberId, fd: Fd, events: Events, t: int, w': World)
    requires w.Ctl(f) == Running && DoWaitfor(w, f, fd, events, t) == Ok(w')
    ensures w'.mem.ready == w.mem.ready
    ensures w'.mem.mutexes == w.mem.mutexes && w'.mem.conds == w.mem.conds && w'.big == w.big
    ensures w'.Ctl(f).Polling? && w'.Ctl(f).fd == fd
    ensures var dir := w'.Ctl(f).dir; w'.mem.D(fd).Queue(dir) == w.mem.D(fd).Queue(dir) + [f]
    ensures forall dir: Direction :: dir != w'.Ctl(f).dir ==> w'.mem.D(fd).Queue(dir) == w.mem.D(fd).Queue(dir)
    ensures forall e: Fd :: e != fd ==> w'.mem.D(e) == w.mem.D(e)
    ensures forall x: FiberId :: x != f ==> w'.Ctl(x) == w.Ctl(x)
  {
  }

  lemma WaitforQueue(w: World, f: FiberId, fd: Fd, events: Events, t: int, w': World, q: QueueId)
    requires w.Ctl(f) == Running && DoWaitfor(w, f, fd, events, t) == Ok(w')
    ensures w'.mem.Queue(q) == Moved(w.mem.Queue(q), q, f, None, PlaceOf(w'.Ctl(f)))
  {
    WaitforMemory(w, f, fd, events, t, w');
    hide DoWaitfor;
    match q
    case ReadyQueue =>
    case LockQueue(m) =>
    case WaitQueue(c) =>
    case FdQueue(e, d) =>
  }

  lemma WaitforPlaces(w: World, f: FiberId, fd: Fd, events: Events, t: int, w': World)
    requires w.Ctl(f) == Running && DoWaitfor(w, f, fd, events, t) == Ok(w')
    requires Places(w)
    ensures Places(w')
  {
    hide Places, DoWaitfor;
    WaitforMemory(w, f, fd, events, t, w');
    forall q: QueueId
      ensures w'.mem.Queue(q) == Moved(w.mem.Queue(q), q, f, None, PlaceOf(w'.Ctl(f)))
    {
      WaitforQueue(w, f, fd, events, t, w', q);
    }
    PlacesMove(w, w', f);
  }

  lemma WaitforTimers(w: World, f: FiberId, fd: Fd, events: Events, t: int, w': World)
    requires w.Ctl(f) == Running && DoWaitfor(w, f, fd, events, t) == Ok(w')
    requires Timers(w)
    ensures Timers(w')
  {
    if t > 0 {
      TimersInsert(w, w', f);
    } else {
      TimersKept(w, w');
    }
  }

  lemma WaitforSelf(w: World, f: FiberId, fd: Fd, events: Events, t: int, w': World)
    requires w.Ctl(f) == Running && DoWaitfor(w, f, fd, events, t) == Ok(w')
    ensures FiberOk(w', f)
  {
  }

  lemma WaitforOthers(w: World, f: FiberId, fd: Fd, events: Events, t: int, w': World)
    requires w.Ctl(f) == Running && DoWaitfor(w, f, fd, events, t) == Ok(w')
    ensures forall x: FiberId :: x != f ==> Untouched(w, w', x)
  {
  }

  lemma WaitforFds(w: World, f: FiberId, fd: Fd, events: Events, t: int, w': World)
    requires DoWaitfor(w, f, fd, events, t) == Ok(w')
    ensures NoLostWakeup(w'.mem, fd, Read) && NoLostWakeup(w'.mem, fd, Write)
  {
  }

  lemma WaitforKeeps(w: World, f: FiberId, fd: Fd, events: Events, t: int, w': World)
    requires Inv(w) && w.big == None && w.Ctl(f) == Running && DoWaitfor(w, f, fd, events, t) == Ok(w')
    ensures Inv(w')
  {
    hide Inv, Places, Timers, FiberOk, MutexOk, NoLostWakeup, Untouched;
    QueueParts(w);
    WaitforPlaces(w, f, fd, events, t, w');
    WaitforTimers(w, f, fd, events, t, w');
    WaitforSelf(w, f, fd, events, t, w');
    WaitforOthers(w, f, fd, events, t, w');
    WaitforFds(w, f, fd, events, t, w');
    WaitforMemory(w, f, fd, events, t, w');
    OtherFdsKept(w, w', fd);
    MutexesSame(w, w', f);
    Assemble(w, w', f, f);
  }
}

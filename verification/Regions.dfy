/** The critical sections of the blocking code, one function a section: what the memory is when
    the section's lock is released, given what it was when the lock was taken. */
module Regions {
  import opened Memory

  // ---- src/sched.c, src/timer_manager.c ---------------------------------------------------

  /** melon_sched_ready_locked for one fiber. */
  function SchedReady(mem: Mem, f: FiberId): Mem {
    mem.(ready := mem.ready + [f]).SetF(f, mem.F(f).(waitedEvent := NO_EVENT))
  }

  /** melon_timer_push_locked: sorted insertion, and a signal when the fiber is the new head. */
  function TimerPush(mem: Mem, f: FiberId): Mem {
    var p := InsertPos(mem.TimerKeys(), mem.F(f).timer);
    mem.(timerQueue := InsertAt(mem.timerQueue, p, f),
         timerThread := if p == 0 then Awake else mem.timerThread)
  }

  /** melon_timer_remove_locked. */
  function TimerRemove(mem: Mem, f: FiberId): Result<Mem> {
    if f in mem.timerQueue then Ok(mem.(timerQueue := Without(mem.timerQueue, f))) else Failed(AssertFailed)
  }

  /** The test every waker makes: a fiber with a positive timer leaves the timer queue. */
  function CancelTimer(mem: Mem, f: FiberId): Result<Mem> {
    if mem.F(f).timer > 0 then TimerRemove(mem, f) else Ok(mem)
  }

  /** melon_usleep. */
  function Usleep(mem: Mem, self: FiberId, timer: int): Mem {
    TimerPush(mem.SetF(self, mem.F(self).(waitedEvent := NO_EVENT, timer := timer, timerCallback := UsleepCallback)),
              self)
  }

  // ---- src/mutex.c ------------------------------------------------------------------------

  function PushWaiter(mem: Mem, m: MutexId, f: FiberId): Mem {
    mem.SetM(m, mem.M(m).(lockQueue := mem.M(m).lockQueue + [f]))
  }

  /** melon_mutex_lock2: a waker locks the mutex, which must not be NULL, on behalf of `f`. */
  function Lock2(mem0: Mem, f: FiberId, saved: Option<MutexId>): Result<Mem> {
    var mem := mem0.SetF(f, mem0.F(f).(timer := 0));
    var m := if saved.Some? then saved.value else 0;
    var mutex := mem.M(m);
    if saved == None then
      Failed(AssertFailed)
    else if mutex.owner == None then
      var count := mem.F(f).lockCount;
      if count == 1 || (count > 1 && mutex.isRecursive) then
        Ok(SchedReady(mem.SetM(m, mutex.(owner := Some(f), lockCount := count)), f))
      else
        Failed(AssertFailed)
    else if mutex.owner == Some(f) then
      Failed(AssertFailed)
    else
      Ok(PushWaiter(mem, m, f))
  }

  /** melon_mutex_lock; the flag says that the fiber was queued and must call melon_sched_next. */
  function Lock(mem0: Mem, self: FiberId, m: MutexId): Result<(Mem, bool)> {
    var mem := mem0.SetF(self, mem0.F(self).(timer := 0, lockCount := 1));
    var mutex := mem.M(m);
    if mutex.owner == None then
      Ok((mem.SetM(m, mutex.(owner := Some(self), lockCount := 1)), false))
    else if mutex.owner == Some(self) then
      if mutex.isRecursive then
        Ok((mem.SetM(m, mutex.(lockCount := mutex.lockCount + 1)), false))
      else
        Failed(AssertFailed)
    else
      Ok((PushWaiter(mem, m, self), true))
  }

  /** melon_mutex_trylock; the flag says whether the lock was taken. */
  function Trylock(mem: Mem, self: FiberId, m: MutexId): (Mem, bool) {
    var mutex := mem.M(m);
    if mutex.owner == None || (mutex.isRecursive && mutex.owner == Some(self)) then
      (mem.SetM(m, mutex.(owner := Some(self), lockCount := mutex.lockCount + 1)), true)
    else
      (mem, false)
  }

  /** The locked part of melon_mutex_timedlock; the flag says that the fiber was queued. */
  function TimedlockSlow(mem: Mem, self: FiberId, m: MutexId, timer: int): (Mem, bool) {
    var mutex := mem.M(m);
    if mutex.owner == None then
      (mem.SetM(m, mutex.(owner := Some(self), lockCount := mutex.lockCount + 1)), false)
    else
      var mem1 := PushWaiter(mem, m, self);
      var fiber := mem1.F(self).(timer := timer, timerCallback := TimedlockCallback(m), timeout := false);
      (TimerPush(mem1.SetF(self, fiber), self), true)
  }

  /** The first statement of melon_mutex_unlock; the flag says that the mutex is to be released. */
  function UnlockDecrement(mem: Mem, m: MutexId): Result<(Mem, bool)> {
    var mutex := mem.M(m);
    if mutex.lockCount > 0 then
      Ok((mem.SetM(m, mutex.(lockCount := mutex.lockCount - 1)), mutex.lockCount == 1))
    else
      Failed(AssertFailed)
  }

  /** The first locked part of melon_mutex_unlock; the flag says that waiters were seen. */
  function UnlockFast(mem: Mem, m: MutexId): (Mem, bool) {
    var mutex := mem.M(m);
    if mutex.lockQueue == [] then (mem.SetM(m, mutex.(owner := None)), false) else (mem, true)
  }

  /** The second locked part: hand the mutex to the head waiter, if there still is one. */
  function UnlockHandoff(mem: Mem, m: MutexId): Result<Mem> {
    var mutex := mem.M(m);
    if mutex.lockQueue == [] then
      Ok(mem.SetM(m, mutex.(owner := None)))
    else
      var next := mutex.lockQueue[0];
      var mem1 := mem.SetM(m, mutex.(owner := Some(next), lockQueue := mutex.lockQueue[1..]));
      var mem2 :- CancelTimer(mem1, next);
      var mem3 := mem2.SetM(m, mem2.M(m).(lockCount := mem2.M(m).lockCount + 1));
      Ok(SchedReady(mem3, next))
  }

  /** melon_mutex_timedlock_cb. */
  function TimedlockCb(mem: Mem, f: FiberId, m: MutexId): Result<Mem> {
    var mutex := mem.M(m);
    if f in mutex.lockQueue then
      var mem1 := mem.SetM(m, mutex.(lockQueue := Without(mutex.lockQueue, f)));
      Ok(SchedReady(mem1.SetF(f, mem1.F(f).(timeout := true)), f))
    else
      Failed(BadUnlink)
  }

  // ---- src/cond.c -------------------------------------------------------------------------

  /** melon_cond_wait up to the release of the condition's spinlock. */
  function CondEnqueue(mem: Mem, self: FiberId, c: CondId, m: MutexId): Result<Mem> {
    var mutex := mem.M(m);
    if mutex.owner != Some(self) then
      Failed(AssertFailed)
    else
      var fiber := mem.F(self).(condMutex := Some(m), lockCount := mutex.lockCount, timer := 0);
      Ok(mem.SetF(self, fiber).SetC(c, mem.C(c) + [self]))
  }

  /** melon_cond_timedwait up to the release of g_melon.lock. */
  function CondTimedEnqueue(mem: Mem, self: FiberId, c: CondId, m: MutexId, timer: int): Result<Mem> {
    var mem1 :- CondEnqueue(mem, self, c, m);
    var fiber := mem1.F(self).(timer := timer, timerCallback := TimedwaitCallback(c), timeout := false);
    Ok(TimerPush(mem1.SetF(self, fiber), self))
  }

  /** The waiter gives up every recursion level at once. */
  function CondRelease(mem: Mem, m: MutexId): Mem {
    mem.SetM(m, mem.M(m).(lockCount := 0))
  }

  /** One iteration of the loop of melon_cond_signalnb on the queue's head. */
  function SignalOne(mem: Mem, c: CondId): Result<Mem>
    requires mem.C(c) != []
  {
    var f := mem.C(c)[0];
    var mem1 :- CancelTimer(mem.SetC(c, mem.C(c)[1..]), f);
    Lock2(mem1, f, mem1.F(f).condMutex)
  }

  lemma SignalShrinks(mem: Mem, c: CondId)
    requires mem.C(c) != [] && SignalOne(mem, c).Ok?
    ensures SignalOne(mem, c).value.C(c) == mem.C(c)[1..]
  {
  }

  /** The rest of melon_cond_signalnb when `woken` waiters have been popped: how many it wakes in
      all, and the memory when it returns.  The waiters that are still in the local list are lost. */
  function SignalLoop(mem: Mem, c: CondId, nb: nat, woken: nat): Result<(Mem, nat)>
    decreases |mem.C(c)|
  {
    if mem.C(c) == [] || (nb > 0 && woken >= nb) then
      Ok((mem.SetC(c, []), woken))
    else
      var mem1 :- SignalOne(mem, c);
      assert |mem1.C(c)| < |mem.C(c)| by { SignalShrinks(mem, c); }
      SignalLoop(mem1, c, nb, woken + 1)
  }

  /** melon_cond_timedwait_cb. */
  function TimedwaitCb(mem: Mem, f: FiberId, c: CondId): Result<Mem> {
    if f in mem.C(c) then
      var mem1 := mem.SetC(c, Without(mem.C(c), f));
      var mem2 := mem1.SetF(f, mem1.F(f).(timeout := true));
      Lock2(mem2, f, mem2.F(f).condMutex)
    else
      Failed(BadUnlink)
  }

  // ---- src/io_manager_epoll.c, src/io.c ---------------------------------------------------

  /** epoll_ctl with MOD or ADD, whichever applies: a new one-shot interest. */
  function Arm(d: Descriptor, read: bool, write: bool): Descriptor {
    d.(registered := true, armed := true, armedRead := read, armedWrite := write)
  }

  /** melon_io_manager_waitfor once epoll_ctl has succeeded. */
  function Waitfor(mem: Mem, self: FiberId, fd: Fd, events: Events, timeout: int): Result<Mem> {
    var d := mem.D(fd);
    var d1 := Arm(d, d.readQueue != [] || events.read, d.writeQueue != [] || events.write).(isInEpoll := true);
    if !events.read && !events.write then
      Failed(AssertFailed)
    else
      var dir := if events.read then Read else Write;
      var mem1 := mem.SetD(fd, d1.WithQueue(dir, d1.Queue(dir) + [self]));
      var fiber := mem1.F(self).(waitedEvent := events, ioCanceled := false);
      if timeout > 0 then
        Ok(TimerPush(mem1.SetF(self, fiber.(timer := timeout, timerCallback := WaitforCallback(fd), timeout := false)),
                     self))
      else
        Ok(mem1.SetF(self, fiber.(timer := 0)))
  }

  /** waitfor_cb. */
  function WaitforCb(mem: Mem, f: FiberId, fd: Fd): Result<Mem> {
    var mem1 := mem.SetF(f, mem.F(f).(timeout := true));
    var events := mem1.F(f).waitedEvent;
    if events.read then
      var mem2 :- UnlinkFd(mem1, f, fd, Read);
      Ok(SchedReady(mem2, f))
    else if events.write then
      var mem2 :- UnlinkFd(mem1, f, fd, Write);
      Ok(SchedReady(mem2, f))
    else
      Ok(SchedReady(mem1, f))
  }

  function UnlinkFd(mem: Mem, f: FiberId, fd: Fd, dir: Direction): Result<Mem> {
    var d := mem.D(fd);
    if f in d.Queue(dir) then Ok(mem.SetD(fd, d.WithQueue(dir, Without(d.Queue(dir), f)))) else Failed(BadUnlink)
  }

  /** Pop a queue of `fd` and make the popped fiber ready, if there is one: the reactor's
      melon_io_manager_release_fiber, and one round of melon_close_flush_queue, which also
      sets `io_canceled`. */
  function ReleaseOne(mem: Mem, fd: Fd, dir: Direction, cancel: bool): Result<Mem> {
    var d := mem.D(fd);
    if d.Queue(dir) == [] then
      Ok(mem)
    else
      var f := d.Queue(dir)[0];
      var mem1 :- CancelTimer(mem.SetD(fd, d.WithQueue(dir, d.Queue(dir)[1..])), f);
      var fiber := mem1.F(f);
      Ok(SchedReady(mem1.SetF(f, fiber.(ioCanceled := fiber.ioCanceled || cancel)), f))
  }

  lemma ReleaseShrinks(mem: Mem, fd: Fd, dir: Direction, cancel: bool)
    requires mem.D(fd).Queue(dir) != [] && ReleaseOne(mem, fd, dir, cancel).Ok?
    ensures ReleaseOne(mem, fd, dir, cancel).value.D(fd).Queue(dir) == mem.D(fd).Queue(dir)[1..]
  {
  }

  /** RELEASE_LOOP and the loop of melon_close_flush_queue. */
  function Flush(mem: Mem, fd: Fd, dir: Direction, cancel: bool): Result<Mem>
    decreases |mem.D(fd).Queue(dir)|
  {
    if mem.D(fd).Queue(dir) == [] then
      Ok(mem)
    else
      var mem1 :- ReleaseOne(mem, fd, dir, cancel);
      assert |mem1.D(fd).Queue(dir)| < |mem.D(fd).Queue(dir)| by {
        ReleaseShrinks(mem, fd, dir, cancel);
      }
      Flush(mem1, fd, dir, cancel)
  }

  /** Both queues of a descriptor, readers first. */
  function FlushAll(mem: Mem, fd: Fd, cancel: bool): Result<Mem> {
    var mem1 :- Flush(mem, fd, Read, cancel);
    Flush(mem1, fd, Write, cancel)
  }

  /** The end of melon_io_manager_handle: re-arm what is still waited for. */
  function Rearm(mem: Mem, fd: Fd): Mem {
    var d := mem.D(fd).(pending := None);
    if (d.readQueue != [] || d.writeQueue != []) && d.registered then
      mem.SetD(fd, Arm(d, d.readQueue != [], d.writeQueue != []))
    else
      mem.SetD(fd, d)
  }

  /** melon_io_manager_handle: an error or a hang-up releases everybody, an input or output event
      releases one fiber of its direction. */
  function Handle(mem: Mem, fd: Fd, event: EpollEvent): Result<Mem> {
    var mem1 :- if event.hup then FlushAll(mem, fd, false) else Ok(mem);
    var mem2 :- if event.readable then ReleaseOne(mem1, fd, Read, false) else Ok(mem1);
    var mem3 :- if event.writable then ReleaseOne(mem2, fd, Write, false) else Ok(mem2);
    Ok(Rearm(mem3, fd))
  }

  /** What the kernel does when it returns an event of a one-shot descriptor. */
  function Deliver(mem: Mem, fd: Fd, event: EpollEvent): Mem {
    mem.SetD(fd, mem.D(fd).(armed := false, armedRead := false, armedWrite := false, pending := Some(event)))
  }

  /** close(2) on a descriptor with no duplicate: epoll forgets it. */
  function KernelClose(mem: Mem, fd: Fd): Mem {
    mem.SetD(fd, mem.D(fd).(registered := false, armed := false, armedRead := false, armedWrite := false))
  }

  /** The end of melon_close; `closes` says whether close(2) succeeds. */
  function Forget(mem: Mem, fd: Fd, closes: bool): Mem {
    var mem1 := if closes then KernelClose(mem, fd) else mem;
    mem1.SetD(fd, mem1.D(fd).(isInEpoll := false))
  }

  /** melon_close. */
  function Close(mem: Mem, fd: Fd, closes: bool): Result<Mem> {
    var mem1 :- FlushAll(mem, fd, true);
    Ok(Forget(mem1, fd, closes))
  }

  // ---- src/timer_manager.c, the timer thread ----------------------------------------------

  /** One round of the expiry loop on the head of the timer queue. */
  function FireHead(mem: Mem): Result<Mem>
    requires mem.timerQueue != []
  {
    var f := mem.timerQueue[0];
    var mem1 := mem.(timerQueue := mem.timerQueue[1..]);
    match mem1.F(f).timerCallback
    case NoCallback => Failed(AssertFailed)
    case UsleepCallback => Ok(SchedReady(mem1, f))
    case TimedlockCallback(m) => TimedlockCb(mem1, f, m)
    case TimedwaitCallback(c) => TimedwaitCb(mem1, f, c)
    case WaitforCallback(fd) => WaitforCb(mem1, f, fd)
  }

  lemma Lock2KeepsTimers(mem: Mem, f: FiberId, saved: Option<MutexId>)
    requires Lock2(mem, f, saved).Ok?
    ensures
      var mem' := Lock2(mem, f, saved).value;
      && mem'.timerQueue == mem.timerQueue && mem'.timerThread == mem.timerThread
      && forall x: FiberId :: x != f ==> mem'.F(x) == mem.F(x)
  {
  }

  lemma TimedwaitCbKeepsTimers(mem: Mem, f: FiberId, c: CondId)
    requires TimedwaitCb(mem, f, c).Ok?
    ensures
      var mem' := TimedwaitCb(mem, f, c).value;
      && mem'.timerQueue == mem.timerQueue && mem'.timerThread == mem.timerThread
      && forall x: FiberId :: x != f ==> mem'.F(x) == mem.F(x)
  {
    hide Lock2;
    var mem1 := mem.SetC(c, Without(mem.C(c), f));
    var mem2 := mem1.SetF(f, mem1.F(f).(timeout := true));
    Lock2KeepsTimers(mem2, f, mem2.F(f).condMutex);
  }

  lemma WaitforCbKeepsTimers(mem: Mem, f: FiberId, fd: Fd)
    requires WaitforCb(mem, f, fd).Ok?
    ensures
      var mem' := WaitforCb(mem, f, fd).value;
      && mem'.timerQueue == mem.timerQueue && mem'.timerThread == mem.timerThread
      && forall x: FiberId :: x != f ==> mem'.F(x) == mem.F(x)
  {
  }

  /** The callbacks of a fired timer push no timer. */
  lemma FireShrinks(mem: Mem)
    requires mem.timerQueue != [] && FireHead(mem).Ok?
    ensures FireHead(mem).value.timerQueue == mem.timerQueue[1..]
    ensures FireHead(mem).value.timerThread == mem.timerThread
    ensures forall f: FiberId :: f != mem.timerQueue[0] ==> FireHead(mem).value.F(f) == mem.F(f)
  {
    hide TimedwaitCb, WaitforCb;
    var f := mem.timerQueue[0];
    var mem1 := mem.(timerQueue := mem.timerQueue[1..]);
    match mem1.F(f).timerCallback
    case TimedwaitCallback(c) => TimedwaitCbKeepsTimers(mem1, f, c);
    case WaitforCallback(fd) => WaitforCbKeepsTimers(mem1, f, fd);
    case _ =>
  }

  /** The expiry loop at time `now`. */
  function Expire(mem: Mem, now: int): Result<Mem>
    decreases |mem.timerQueue|
  {
    if mem.timerQueue == [] || mem.F(mem.timerQueue[0]).timer > now then
      Ok(mem)
    else
      var mem1 :- FireHead(mem);
      assert |mem1.timerQueue| < |mem.timerQueue| by { FireShrinks(mem); }
      Expire(mem1, now)
  }

  /** The end of a pass: the thread blocks until the head's timer, or for good. */
  function TimerSleep(mem: Mem): Mem {
    mem.(timerThread := Asleep(
           if mem.timerQueue == [] then None
           else Some(DeadlineOf(mem.F(mem.timerQueue[0]).timer))))
  }
}

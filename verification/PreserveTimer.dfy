/** The steps of src/timer_manager.c keep the invariant; every timer callback finds its fiber in
    the queue from which it unlinks it. */
module PreserveTimer {
  import opened Memory
  import opened Machine
  import opened Invariant
  import PreserveCond
  import Regions

  // ---- melon_usleep, and the timer thread's own state ---------------------------------------

  lemma UsleepQueues(w: World, f: FiberId, timer: int, w': World)
    requires w.Ctl(f) == Running && w' == DoUsleep(w, f, timer)
    requires Places(w) && Timers(w)
    ensures Places(w') && Timers(w')
  {
    PlacesMove(w, w', f);
    TimersInsert(w, w', f);
  }

  lemma UsleepEffect(w: World, f: FiberId, timer: int, w': World)
    requires w.Ctl(f) == Running && w' == DoUsleep(w, f, timer)
    ensures FiberOk(w', f)
    ensures forall x: FiberId :: x != f ==> Untouched(w, w', x)
    ensures w'.mem.mutexes == w.mem.mutexes && w'.mem.fds == w.mem.fds && w'.big == w.big
  {
  }

  lemma UsleepKeeps(w: World, f: FiberId, timer: int, w': World)
    requires Inv(w) && w.Ctl(f) == Running && w' == DoUsleep(w, f, timer)
    ensures Inv(w')
  {
    hide Inv, Places, Timers, FiberOk, MutexOk, NoLostWakeup, Untouched;
    QueueParts(w);
    UsleepQueues(w, f, timer, w');
    UsleepEffect(w, f, timer, w');
    MutexesSame(w, w', f);
    FdsKept(w, w');
    Assemble(w, w', f, f);
  }

  lemma TimerThreadTimers(w: World, w': World)
    requires Timers(w)
    requires w' == w.(mem := Regions.TimerSleep(w.mem)) || w' == w.(mem := w.mem.(timerThread := Awake))
    ensures Timers(w')
  {
    if w.mem.timerQueue != [] {
      DeadlineIsExact(w.mem.F(w.mem.timerQueue[0]).timer);
    }
  }

  /** Going to sleep on the head's timer, or being woken. */
  lemma TimerThreadKeeps(w: World, w': World)
    requires Inv(w)
    requires w' == w.(mem := Regions.TimerSleep(w.mem)) || w' == w.(mem := w.mem.(timerThread := Awake))
    ensures Inv(w')
  {
    hide Inv, Places, Timers, NoLostWakeup;
    QueueParts(w);
    TimerThreadTimers(w, w');
    FdsKept(w, w');
    NobodyMoves(w, w');
  }

  // ---- The expiry of one timer --------------------------------------------------------------

  /** The timer thread fires the head `f` of the timer queue. */
  ghost predicate Fires(w: World, f: FiberId, w': World) {
    && w.mem.timerQueue != [] && f == w.mem.timerQueue[0] && DoFire(w) == Ok(w')
    && InTimers(w.Ctl(f)) && FiberOk(w, f)
  }

  lemma FireControl(w: World, f: FiberId, w': World)
    requires Fires(w, f, w')
    ensures w'.Ctl(f) == Fired(w.mem, w.Ctl(f))
    ensures forall x: FiberId :: x != f ==> w'.Ctl(x) == w.Ctl(x)
    ensures w'.big == w.big
  {
  }

  lemma FireFibers(w: World, f: FiberId, w': World, x: FiberId)
    requires Fires(w, f, w') && x != f
    ensures w'.mem.F(x) == w.mem.F(x)
  {
  }

  lemma FireMemory(w: World, f: FiberId, w': World)
    requires Fires(w, f, w')
    ensures w'.mem.timerQueue == w.mem.timerQueue[1..] && w'.mem.timerThread == w.mem.timerThread
  {
  }

  lemma FireReady(w: World, f: FiberId, w': World)
    requires Fires(w, f, w') && !w.Ctl(f).Waiting?
    ensures w'.mem.ready == w.mem.ready + [f] && w'.mem.conds == w.mem.conds
  {
  }

  lemma FireMutexes(w: World, f: FiberId, w': World)
    requires Fires(w, f, w')
    ensures w.Ctl(f).Waiting? ==> PreserveCond.RelocksOn(w, f, w')
    ensures w.Ctl(f).Locking? ==>
              var m := w.Ctl(f).mutex;
              && w'.mem.M(m) == w.mem.M(m).(lockQueue := Without(w.mem.M(m).lockQueue, f))
              && forall n: MutexId :: n != m ==> w'.mem.M(n) == w.mem.M(n)
    ensures !w.Ctl(f).Waiting? && !w.Ctl(f).Locking? ==> w'.mem.mutexes == w.mem.mutexes
  {
  }

  lemma FireConds(w: World, f: FiberId, w': World)
    requires Fires(w, f, w')
    ensures w.Ctl(f).Waiting? ==>
              var c := w.Ctl(f).cond;
              && w'.mem.C(c) == Without(w.mem.C(c), f)
              && forall d: CondId :: d != c ==> w'.mem.C(d) == w.mem.C(d)
  {
  }

  lemma FireFds(w: World, f: FiberId, w': World)
    requires Fires(w, f, w')
    ensures w.Ctl(f).Polling? ==>
              var fd, dir := w.Ctl(f).fd, w.Ctl(f).dir;
              && w'.mem.D(fd) == w.mem.D(fd).WithQueue(dir, Without(w.mem.D(fd).Queue(dir), f))
              && forall e: Fd :: e != fd ==> w'.mem.D(e) == w.mem.D(e)
    ensures !w.Ctl(f).Polling? ==> w'.mem.fds == w.mem.fds
  {
  }

  lemma FireQueueWaiting(w: World, f: FiberId, w': World, q: QueueId)
    requires Fires(w, f, w') && w.Ctl(f).Waiting? && PlaceOf(w.Ctl(f)) == Some(WaitQueue(w.Ctl(f).cond))
    ensures w'.mem.Queue(q) == Moved(w.mem.Queue(q), q, f, PlaceOf(w.Ctl(f)), PlaceOf(w'.Ctl(f)))
  {
    FireControl(w, f, w');
    FireMutexes(w, f, w');
    FireFds(w, f, w');
    FireConds(w, f, w');
    hide Fires;
    match q
    case ReadyQueue =>
    case LockQueue(m) =>
    case WaitQueue(c) =>
    case FdQueue(fd, dir) =>
  }

  lemma FireQueueOthers(w: World, f: FiberId, w': World, q: QueueId)
    requires Fires(w, f, w') && InTimers(w.Ctl(f)) && !w.Ctl(f).Waiting?
    ensures w'.mem.Queue(q) == Moved(w.mem.Queue(q), q, f, PlaceOf(w.Ctl(f)), PlaceOf(w'.Ctl(f)))
  {
    hide Fires, PreserveCond.RelocksOn;
    FireControl(w, f, w');
    FireMutexes(w, f, w');
    FireFds(w, f, w');
    FireReady(w, f, w');
    match q
    case ReadyQueue =>
    case LockQueue(m) =>
    case WaitQueue(c) =>
    case FdQueue(fd, dir) =>
  }

  lemma FireQueue(w: World, f: FiberId, w': World, q: QueueId)
    requires Fires(w, f, w') && PlaceOf(w.Ctl(f)) != PlaceOf(w'.Ctl(f))
    requires w.Ctl(f).Waiting? ==> !w.Ctl(f).dropped
    ensures w'.mem.Queue(q) == Moved(w.mem.Queue(q), q, f, PlaceOf(w.Ctl(f)), PlaceOf(w'.Ctl(f)))
  {
    assert InTimers(w.Ctl(f));
    hide Fires;
    if w.Ctl(f).Waiting? { FireQueueWaiting(w, f, w', q); } else { FireQueueOthers(w, f, w', q); }
  }

  /** A waiter that was dropped is not in its condition's queue: the unlink would have failed. */
  lemma FireNotDropped(w: World, f: FiberId, w': World)
    requires Places(w) && Fires(w, f, w')
    ensures w.Ctl(f).Waiting? ==> !w.Ctl(f).dropped && w.Ctl(f).release == Parked
    ensures PlaceOf(w'.Ctl(f)) != PlaceOf(w.Ctl(f)) && !InTimers(w'.Ctl(f))
    ensures ReleasingMutex(w.Ctl(f)) == None && !w'.Ctl(f).SignalLoop?
  {
    if w.Ctl(f).Waiting? {
      assert f in w.mem.Queue(WaitQueue(w.Ctl(f).cond));
    }
  }

  lemma FirePlaces(w: World, f: FiberId, w': World)
    requires Places(w) && Fires(w, f, w')
    ensures Places(w')
  {
    FireNotDropped(w, f, w');
    FireControl(w, f, w');
    hide Places, Fires;
    forall q: QueueId
      ensures w'.mem.Queue(q) == Moved(w.mem.Queue(q), q, f, PlaceOf(w.Ctl(f)), PlaceOf(w'.Ctl(f)))
    {
      FireQueue(w, f, w', q);
    }
    PlacesMove(w, w', f);
  }

  lemma FireTimers(w: World, f: FiberId, w': World)
    requires Timers(w) && Fires(w, f, w') && !InTimers(w'.Ctl(f))
    ensures Timers(w')
  {
    FireMemory(w, f, w');
    FireControl(w, f, w');
    WithoutHead(w.mem.timerQueue);
    assert f in w.mem.timerQueue;
    forall x: FiberId | x != f ensures w'.mem.F(x) == w.mem.F(x) { FireFibers(w, f, w', x); }
    hide Fires;
    TimersRemove(w, w', f);
  }

  lemma FireSelf(w: World, f: FiberId, w': World)
    requires Fires(w, f, w')
    requires w.Ctl(f).Waiting? ==> MutexOk(w, w.Ctl(f).mutex)
    ensures FiberOk(w', f)
  {
  }

  /** The mutex that the fired fiber waits for; 0 if it waits for none. */
  function FiredMutex(ctl: Control): MutexId {
    if ctl.Locking? || ctl.Waiting? then ctl.mutex else 0
  }

  lemma FireMutex(w: World, f: FiberId, w': World)
    requires Fires(w, f, w') && ReleasingMutex(w.Ctl(f)) == None
    requires MutexOk(w, FiredMutex(w.Ctl(f)))
    ensures MutexOk(w', FiredMutex(w.Ctl(f)))
    ensures forall n: MutexId :: n != FiredMutex(w.Ctl(f)) ==> w'.mem.M(n) == w.mem.M(n)
  {
    FireControl(w, f, w');
    FireMutexes(w, f, w');
  }

  lemma FireOthers(w: World, f: FiberId, w': World, y: FiberId)
    requires Fires(w, f, w') && y != f && w.big == None && FiberOk(w, y)
    ensures Untouched(w, w', y)
  {
    FireControl(w, f, w');
    FireFibers(w, f, w', y);
    FireMutexes(w, f, w');
    hide Fires;
  }

  lemma FireKeeps(w: World, w': World)
    requires Inv(w) && w.big == None && w.mem.timerQueue != [] && DoFire(w) == Ok(w')
    ensures Inv(w')
  {
    var f := w.mem.timerQueue[0];
    assert Fires(w, f, w') by {
      assert FiberOk(w, f) && f in w.mem.timerQueue;
    }
    hide Inv, Places, Timers, FiberOk, MutexOk, NoLostWakeup, Untouched, Fires, DoFire;
    QueueParts(w);
    FireNotDropped(w, f, w');
    FirePlaces(w, f, w');
    FireTimers(w, f, w');
    MutexPart(w, FiredMutex(w.Ctl(f)));
    FireSelf(w, f, w');
    FireMutex(w, f, w');
    FireControl(w, f, w');
    forall y: FiberId | y != f ensures Untouched(w, w', y) {
      FiberPart(w, y);
      FireOthers(w, f, w', y);
    }
    MutexesKept(w, w', FiredMutex(w.Ctl(f)), f, f);
    FireNoLostWakeup(w, f, w');
    Assemble(w, w', f, f);
  }

  lemma FireNoLostWakeup(w: World, f: FiberId, w': World)
    requires Inv(w) && Fires(w, f, w')
    ensures forall fd: Fd, dir: Direction :: NoLostWakeup(w'.mem, fd, dir)
  {
    FireFds(w, f, w');
    hide Inv, Fires;
    forall fd: Fd, dir: Direction ensures NoLostWakeup(w'.mem, fd, dir) {
      FdPart(w, fd);
    }
  }
}

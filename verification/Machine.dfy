/** The runtime as a transition system.  A step is one critical section of one call, run by a
    fiber, by the timer thread, by the I/O thread or by the kernel; steps interleave freely. */
module Machine {
  import opened Memory
  import Regions

  /** How a fiber came to stand in a lock queue.  `owned` says that it already owned the mutex. */
  datatype Queued =
    | ByLock
    | ByTimedlock(owned: bool)
    | ByCond(cond: CondId, timed: bool, expired: bool)

  /** What ended an I/O wait. */
  datatype IoOutcome = GotEvent | Expired | Canceled

  /** The blocking call that a runnable fiber returns from when it is dispatched. `expired` records
      that the timer callback, and not a waker, removed the fiber. */
  datatype Return =
    | FromStart
    | FromLock(mutex: MutexId)
    | FromTimedlock(mutex: MutexId, owned: bool, expired: bool)
    | FromCond(cond: CondId, mutex: MutexId, timed: bool, expired: bool)
    | FromWaitfor(timed: bool, outcome: IoOutcome)
    | FromUsleep

  /** How far a waiter on a condition has got in giving up its mutex. */
  datatype Release = Pushed | Releasing | Handing | Parked

  /** Where a fiber stands in its code. */
  datatype Control =
    | NotStarted
    | Running
    | Runnable(from: Return)
    | RetryTimedlock(mutex: MutexId, timeout: nat)
    | Locking(mutex: MutexId, how: Queued)
    | Unlocking(mutex: MutexId, handing: bool)
    | Waiting(cond: CondId, mutex: MutexId, timed: bool, release: Release, dropped: bool)
    | SignalLoop(cond: CondId, nb: nat, woken: nat, total: nat)
    | Polling(fd: Fd, dir: Direction, timed: bool)
    | Sleeping

  /** The int that a call returns. */
  datatype Ret = RetOk | RetBusy | RetTimedOut | RetCanceled

  /** `big` is the fiber that holds g_melon.lock between two steps. */
  datatype World = World(mem: Mem, control: map<FiberId, Control>, ret: map<FiberId, Ret>, big: Option<FiberId>)
  {
    function Ctl(f: FiberId): Control {
      if f in control then control[f] else NotStarted
    }

    function Ret(f: FiberId): Ret {
      if f in ret then ret[f] else RetOk
    }

    function With(mem': Mem, f: FiberId, ctl: Control): World {
      this.(mem := mem', control := control[f := ctl])
    }

    function Returning(f: FiberId, r: Ret): World {
      this.(ret := ret[f := r])
    }

    predicate Owns(f: FiberId, m: MutexId) {
      mem.M(m).owner == Some(f)
    }

    /** A fiber in melon_cond_signalnb holds the condition's spinlock. */
    predicate SpinHeld(c: CondId) {
      big.Some? && Ctl(big.value).SignalLoop? && Ctl(big.value).cond == c
    }
  }

  datatype Step =
    | Spawn(f: FiberId)
    | Dispatch
    | Lock(f: FiberId, m: MutexId)
    | Trylock(f: FiberId, m: MutexId)
    | Timedlock(f: FiberId, m: MutexId, timeout: nat)
    | TimedlockSlow(f: FiberId)
    | Unlock(f: FiberId, m: MutexId)
    | UnlockFast(f: FiberId)
    | UnlockHandoff(f: FiberId)
    | CondWait(f: FiberId, c: CondId, m: MutexId)
    | CondTimedwait(f: FiberId, c: CondId, m: MutexId, timeout: nat)
    | CondRelease(f: FiberId)
    | SignalBegin(f: FiberId, c: CondId, nb: nat)
    | SignalOne(f: FiberId)
    | SignalEnd(f: FiberId)
    | Usleep(f: FiberId, timer: int)
    | Waitfor(f: FiberId, fd: Fd, events: Events, deadline: int)
    | Close(f: FiberId, fd: Fd, closes: bool)
    | Cancelio(f: FiberId, fd: Fd)
    | Deliver(fd: Fd, event: EpollEvent)
    | Handle(fd: Fd)
    | RawClose(fd: Fd)
    | Fire(now: int)
    | TimerSleep(now: int)
    | TimerWake

  /** The mutex that a fiber is about to release, and whether it has seen waiters. */
  function ReleasingMutex(ctl: Control): Option<(MutexId, bool)> {
    match ctl
    case Unlocking(m, handing) => Some((m, handing))
    case Waiting(_, m, _, Releasing, _) => Some((m, false))
    case Waiting(_, m, _, Handing, _) => Some((m, true))
    case _ => None
  }

  /** When a step can be taken.  A call with timeout 0 is the untimed call.  A fiber unlocks only
      a mutex that it owns; every other condition is a lock or the position in the code. */
  predicate Enabled(w: World, s: Step) {
    match s
    case Spawn(f) => w.big == None && w.Ctl(f) == NotStarted
    case Dispatch => w.big == None && w.mem.ready != []
    case Lock(f, _) => w.Ctl(f) == Running
    case Trylock(f, _) => w.Ctl(f) == Running
    case Timedlock(f, _, t) => w.Ctl(f) == Running && 0 < t < TWO_64
    case TimedlockSlow(f) => w.big == None && w.Ctl(f).RetryTimedlock?
    case Unlock(f, m) => w.Ctl(f) == Running && w.Owns(f, m)
    case UnlockFast(f) => var r := ReleasingMutex(w.Ctl(f)); r.Some? && !r.value.1
    case UnlockHandoff(f) => var r := ReleasingMutex(w.Ctl(f)); w.big == None && r.Some? && r.value.1
    case CondWait(f, c, _) => w.Ctl(f) == Running && !w.SpinHeld(c)
    case CondTimedwait(f, c, _, t) => w.big == None && w.Ctl(f) == Running && 0 < t < TWO_64
    case CondRelease(f) => w.Ctl(f).Waiting? && w.Ctl(f).release == Pushed
    case SignalBegin(f, _, _) => w.big == None && w.Ctl(f) == Running
    case SignalOne(f) =>
      w.big == Some(f) && w.Ctl(f).SignalLoop? && SignalGoesOn(w.mem, w.Ctl(f))
    case SignalEnd(f) =>
      w.big == Some(f) && w.Ctl(f).SignalLoop? && !SignalGoesOn(w.mem, w.Ctl(f))
    case Usleep(f, _) => w.big == None && w.Ctl(f) == Running
    case Waitfor(f, _, _, _) => w.big == None && w.Ctl(f) == Running
    case Close(f, _, _) => w.big == None && w.Ctl(f) == Running
    case Cancelio(f, _) => w.big == None && w.Ctl(f) == Running
    case Deliver(fd, e) =>
      var d := w.mem.D(fd);
      && d.registered && d.armed && d.pending == None
      && (e.hup || e.readable || e.writable)
      && (e.readable ==> d.armedRead) && (e.writable ==> d.armedWrite)
    case Handle(fd) => w.big == None && w.mem.D(fd).pending.Some?
    case RawClose(_) => true
    case Fire(now) =>
      && w.big == None && w.mem.timerThread == Awake
      && w.mem.timerQueue != [] && w.mem.F(w.mem.timerQueue[0]).timer <= now
    case TimerSleep(now) =>
      && w.big == None && w.mem.timerThread == Awake
      && (w.mem.timerQueue == [] || w.mem.F(w.mem.timerQueue[0]).timer > now)
    case TimerWake => w.mem.timerThread.Asleep?
  }

  predicate SignalGoesOn(mem: Mem, ctl: Control)
    requires ctl.SignalLoop?
  {
    (ctl.nb == 0 || ctl.woken < ctl.nb) && mem.C(ctl.cond) != []
  }

  // ---- What a step does to the position of the fibers it concerns --------------------------

  function AfterUnlock(ctl: Control): Control {
    if ctl.Waiting? then ctl.(release := Parked) else Running
  }

  function AfterUnlockSawWaiters(ctl: Control): Control {
    match ctl
    case Waiting(_, _, _, _, _) => ctl.(release := Handing)
    case Unlocking(m, _) => Unlocking(m, true)
    case _ => ctl
  }

  /** The head waiter has been given the mutex. */
  function Granted(ctl: Control): Control {
    match ctl
    case Locking(m, ByLock) => Runnable(FromLock(m))
    case Locking(m, ByTimedlock(owned)) => Runnable(FromTimedlock(m, owned, false))
    case Locking(m, ByCond(c, timed, expired)) => Runnable(FromCond(c, m, timed, expired))
    case _ => ctl
  }

  /** A waiter has left its condition's queue and gone through lock2; `before` is the memory then. */
  function Relocked(before: Mem, ctl: Control, expired: bool): Control {
    if !ctl.Waiting? then ctl
    else if before.M(ctl.mutex).owner == None then Runnable(FromCond(ctl.cond, ctl.mutex, ctl.timed, expired))
    else Locking(ctl.mutex, ByCond(ctl.cond, ctl.timed, expired))
  }

  function Fired(before: Mem, ctl: Control): Control {
    match ctl
    case Sleeping => Runnable(FromUsleep)
    case Locking(m, ByTimedlock(owned)) => Runnable(FromTimedlock(m, owned, true))
    case Waiting(_, _, _, _, _) => Relocked(before, ctl, true)
    case Polling(_, _, timed) => Runnable(FromWaitfor(timed, Expired))
    case _ => ctl
  }

  function IoReleased(ctl: Control, outcome: IoOutcome): Control {
    if ctl.Polling? then Runnable(FromWaitfor(ctl.timed, outcome)) else ctl
  }

  /** The waiters that melon_cond_signalnb leaves in its local list are in no queue any more. */
  function Dropped(control: map<FiberId, Control>, q: seq<FiberId>): (r: map<FiberId, Control>)
    ensures forall f :: f !in q ==> (f in r <==> f in control) && (f in r ==> r[f] == control[f])
    ensures forall f :: f in q && f in control && control[f].Waiting? ==> f in r && r[f] == control[f].(dropped := true)
  {
    map f | f in control :: if f in q && control[f].Waiting? then control[f].(dropped := true) else control[f]
  }

  /** What the blocking call returns, read from memory when the fiber runs again. */
  function ReturnValue(mem: Mem, f: FiberId, from: Return): Ret {
    match from
    case FromTimedlock(_, _, _) => if mem.F(f).timeout then RetTimedOut else RetOk
    case FromCond(_, _, timed, _) => if timed && mem.F(f).timeout then RetTimedOut else RetOk
    case FromWaitfor(timed, _) =>
      if timed && mem.F(f).timeout then RetTimedOut
      else if mem.F(f).ioCanceled then RetCanceled
      else RetOk
    case _ => RetOk
  }

  // ---- Steps --------------------------------------------------------------------------------

  function DoSpawn(w: World, f: FiberId): World {
    w.With(Regions.SchedReady(w.mem, f), f, Runnable(FromStart))
  }

  /** A kernel thread pops the ready list and resumes the fiber, whose blocking call returns. */
  function DoDispatch(w: World): World
    requires w.mem.ready != []
  {
    var f := w.mem.ready[0];
    var ctl := w.Ctl(f);
    var r := if ctl.Runnable? then ReturnValue(w.mem, f, ctl.from) else RetOk;
    w.With(w.mem.(ready := w.mem.ready[1..]), f, Running).Returning(f, r)
  }

  function DoLock(w: World, f: FiberId, m: MutexId): Result<World> {
    var (mem, queued) :- Regions.Lock(w.mem, f, m);
    Ok(w.With(mem, f, if queued then Locking(m, ByLock) else Running))
  }

  function DoTrylock(w: World, f: FiberId, m: MutexId): World {
    var (mem, taken) := Regions.Trylock(w.mem, f, m);
    w.With(mem, f, Running).Returning(f, if taken then RetOk else RetBusy)
  }

  function DoTimedlock(w: World, f: FiberId, m: MutexId, t: nat): World {
    var (mem, taken) := Regions.Trylock(w.mem, f, m);
    if taken then w.With(mem, f, Running).Returning(f, RetOk) else w.With(mem, f, RetryTimedlock(m, t))
  }

  function DoTimedlockSlow(w: World, f: FiberId): World
    requires w.Ctl(f).RetryTimedlock?
  {
    var RetryTimedlock(m, t) := w.Ctl(f);
    var (mem, queued) := Regions.TimedlockSlow(w.mem, f, m, ToInt64(t));
    if queued then w.With(mem, f, Locking(m, ByTimedlock(w.Owns(f, m))))
    else w.With(mem, f, Running).Returning(f, RetOk)
  }

  function DoUnlock(w: World, f: FiberId, m: MutexId): Result<World> {
    var (mem, release) :- Regions.UnlockDecrement(w.mem, m);
    Ok(w.With(mem, f, if release then Unlocking(m, false) else Running))
  }

  function DoUnlockFast(w: World, f: FiberId): World
    requires ReleasingMutex(w.Ctl(f)).Some?
  {
    var (mem, waiters) := Regions.UnlockFast(w.mem, ReleasingMutex(w.Ctl(f)).value.0);
    w.With(mem, f, if waiters then AfterUnlockSawWaiters(w.Ctl(f)) else AfterUnlock(w.Ctl(f)))
  }

  function DoUnlockHandoff(w: World, f: FiberId): Result<World>
    requires ReleasingMutex(w.Ctl(f)).Some?
  {
    var m := ReleasingMutex(w.Ctl(f)).value.0;
    var q := w.mem.M(m).lockQueue;
    var mem :- Regions.UnlockHandoff(w.mem, m);
    var w1 := w.With(mem, f, AfterUnlock(w.Ctl(f)));
    Ok(if q == [] then w1 else w1.With(mem, q[0], Granted(w1.Ctl(q[0]))))
  }

  function DoCondWait(w: World, f: FiberId, c: CondId, m: MutexId): Result<World> {
    var mem :- Regions.CondEnqueue(w.mem, f, c, m);
    Ok(w.With(mem, f, Waiting(c, m, false, Pushed, false)))
  }

  function DoCondTimedwait(w: World, f: FiberId, c: CondId, m: MutexId, t: nat): Result<World> {
    var mem :- Regions.CondTimedEnqueue(w.mem, f, c, m, ToInt64(t));
    Ok(w.With(mem, f, Waiting(c, m, true, Pushed, false)))
  }

  function DoCondRelease(w: World, f: FiberId): World
    requires w.Ctl(f).Waiting?
  {
    w.With(Regions.CondRelease(w.mem, w.Ctl(f).mutex), f, w.Ctl(f).(release := Releasing))
  }

  function DoSignalBegin(w: World, f: FiberId, c: CondId, nb: nat): World {
    w.With(w.mem, f, SignalLoop(c, nb, 0, |w.mem.C(c)|)).(big := Some(f))
  }

  function DoSignalOne(w: World, f: FiberId): Result<World>
    requires w.Ctl(f).SignalLoop? && w.mem.C(w.Ctl(f).cond) != []
  {
    var ctl := w.Ctl(f);
    var x := w.mem.C(ctl.cond)[0];
    var mem :- Regions.SignalOne(w.mem, ctl.cond);
    var w1 := w.With(mem, f, ctl.(woken := ctl.woken + 1));
    Ok(w1.With(mem, x, Relocked(w.mem, w1.Ctl(x), false)))
  }

  function DoSignalEnd(w: World, f: FiberId): World
    requires w.Ctl(f).SignalLoop?
  {
    var c := w.Ctl(f).cond;
    var w1 := w.(control := Dropped(w.control, w.mem.C(c)), big := None);
    w1.With(w.mem.SetC(c, []), f, Running)
  }

  function DoUsleep(w: World, f: FiberId, timer: int): World {
    w.With(Regions.Usleep(w.mem, f, timer), f, Sleeping)
  }

  function DoWaitfor(w: World, f: FiberId, fd: Fd, events: Events, deadline: int): Result<World> {
    var mem :- Regions.Waitfor(w.mem, f, fd, events, deadline);
    Ok(w.With(mem, f, Polling(fd, if events.read then Read else Write, deadline > 0)))
  }

  /** Pop one queue of a descriptor, if it is not empty. */
  function PopOne(w: World, fd: Fd, dir: Direction, cancel: bool): Result<World> {
    var q := w.mem.D(fd).Queue(dir);
    var mem :- Regions.ReleaseOne(w.mem, fd, dir, cancel);
    Ok(if q == [] then w else w.With(mem, q[0], IoReleased(w.Ctl(q[0]), if cancel then Canceled else GotEvent)))
  }

  function FlushOne(w: World, fd: Fd, dir: Direction, cancel: bool): Result<World>
    decreases |w.mem.D(fd).Queue(dir)|
  {
    if w.mem.D(fd).Queue(dir) == [] then Ok(w)
    else
      var w1 :- PopOne(w, fd, dir, cancel);
      assert |w1.mem.D(fd).Queue(dir)| < |w.mem.D(fd).Queue(dir)| by {
        Regions.ReleaseShrinks(w.mem, fd, dir, cancel);
      }
      FlushOne(w1, fd, dir, cancel)
  }

  /** Empty both queues of a descriptor, readers first. */
  function FlushBoth(w: World, fd: Fd, cancel: bool): Result<World> {
    var w1 :- FlushOne(w, fd, Read, cancel);
    FlushOne(w1, fd, Write, cancel)
  }

  function DoClose(w: World, fd: Fd, closes: bool): Result<World> {
    var w1 :- FlushBoth(w, fd, true);
    Ok(w1.(mem := Regions.Forget(w1.mem, fd, closes)))
  }

  function DoHandle(w: World, fd: Fd): Result<World>
    requires w.mem.D(fd).pending.Some?
  {
    var event := w.mem.D(fd).pending.value;
    var w1 :- if event.hup then FlushBoth(w, fd, false) else Ok(w);
    var w2 :- if event.readable then PopOne(w1, fd, Read, false) else Ok(w1);
    var w3 :- if event.writable then PopOne(w2, fd, Write, false) else Ok(w2);
    Ok(w3.(mem := Regions.Rearm(w3.mem, fd)))
  }

  function DoFire(w: World): Result<World>
    requires w.mem.timerQueue != []
  {
    var f := w.mem.timerQueue[0];
    var mem :- Regions.FireHead(w.mem);
    Ok(w.With(mem, f, Fired(w.mem, w.Ctl(f))))
  }

  function Apply(w: World, s: Step): Result<World>
    requires Enabled(w, s)
  {
    match s
    case Spawn(f) => Ok(DoSpawn(w, f))
    case Dispatch => Ok(DoDispatch(w))
    case Lock(f, m) => DoLock(w, f, m)
    case Trylock(f, m) => Ok(DoTrylock(w, f, m))
    case Timedlock(f, m, t) => Ok(DoTimedlock(w, f, m, t))
    case TimedlockSlow(f) => Ok(DoTimedlockSlow(w, f))
    case Unlock(f, m) => DoUnlock(w, f, m)
    case UnlockFast(f) => Ok(DoUnlockFast(w, f))
    case UnlockHandoff(f) => DoUnlockHandoff(w, f)
    case CondWait(f, c, m) => DoCondWait(w, f, c, m)
    case CondTimedwait(f, c, m, t) => DoCondTimedwait(w, f, c, m, t)
    case CondRelease(f) => Ok(DoCondRelease(w, f))
    case SignalBegin(f, c, nb) => Ok(DoSignalBegin(w, f, c, nb))
    case SignalOne(f) => DoSignalOne(w, f)
    case SignalEnd(f) => Ok(DoSignalEnd(w, f))
    case Usleep(f, timer) => Ok(DoUsleep(w, f, timer))
    case Waitfor(f, fd, events, deadline) => DoWaitfor(w, f, fd, events, deadline)
    case Close(_, fd, closes) => DoClose(w, fd, closes)
    case Cancelio(_, fd) => FlushBoth(w, fd, true)
    case Deliver(fd, event) => Ok(w.(mem := Regions.Deliver(w.mem, fd, event)))
    case Handle(fd) => DoHandle(w, fd)
    case RawClose(fd) => Ok(w.(mem := Regions.KernelClose(w.mem, fd)))
    case Fire(_) => DoFire(w)
    case TimerSleep(_) => Ok(w.(mem := Regions.TimerSleep(w.mem)))
    case TimerWake => Ok(w.(mem := w.mem.(timerThread := Awake)))
  }

  // ---- Runs ---------------------------------------------------------------------------------

  /** Before any step: nothing is queued, no mutex is owned, no fiber has started. */
  ghost predicate Init(w: World) {
    && w.big == None
    && w.mem.ready == [] && w.mem.timerQueue == [] && w.mem.timerThread == Awake
    && (forall f: FiberId :: w.Ctl(f) == NotStarted)
    && (forall m: MutexId :: w.mem.M(m) == FRESH_MUTEX.(isRecursive := w.mem.M(m).isRecursive))
    && (forall c: CondId :: w.mem.C(c) == [])
    && (forall fd: Fd :: w.mem.D(fd) == FRESH_DESCRIPTOR)
  }

  ghost predicate Next(w: World, s: Step, w': World) {
    Enabled(w, s) && Apply(w, s) == Ok(w')
  }

  /** A run as its worlds and the steps between them. */
  ghost predicate Run(ws: seq<World>, steps: seq<Step>) {
    && |ws| == |steps| + 1
    && Init(ws[0])
    && forall i :: 0 <= i < |steps| ==> Next(ws[i], steps[i], ws[i + 1])
  }
}

/** What holds in every run of the runtime. */
module Safety {
  import opened Memory
  import opened Machine
  import opened Invariant
  import PreserveMutex
  import PreserveCond
  import PreserveIo
  import PreserveTimer

  // ---- The invariant over runs --------------------------------------------------------------

  lemma InitInv(w: World)
    requires Init(w)
    ensures Inv(w)
  {
    forall m: MutexId ensures MutexOk(w, m) {
      assert w.mem.M(m) == FRESH_MUTEX.(isRecursive := w.mem.M(m).isRecursive);
    }
    forall q: QueueId ensures w.mem.Queue(q) == [] {
      match q
      case ReadyQueue =>
      case LockQueue(m) => assert w.mem.M(m) == FRESH_MUTEX.(isRecursive := w.mem.M(m).isRecursive);
      case WaitQueue(c) =>
      case FdQueue(fd, dir) => assert w.mem.D(fd) == FRESH_DESCRIPTOR;
    }
    forall f: FiberId ensures FiberOk(w, f) && w.Ctl(f) == NotStarted { assert w.Ctl(f) == NotStarted; }
    forall fd: Fd, dir: Direction ensures NoLostWakeup(w.mem, fd, dir) { assert w.mem.D(fd) == FRESH_DESCRIPTOR; }
  }

  /** The steps of src/mutex.c and of dispatch. */
  predicate MutexStep(s: Step) {
    s.Spawn? || s.Dispatch? || s.Lock? || s.Trylock? || s.Timedlock? || s.TimedlockSlow?
    || s.Unlock? || s.UnlockFast? || s.UnlockHandoff?
  }

  /** The steps of src/cond.c. */
  predicate CondStep(s: Step) {
    s.CondWait? || s.CondTimedwait? || s.CondRelease? || s.SignalBegin? || s.SignalOne? || s.SignalEnd?
  }

  lemma MutexStepKeeps(w: World, s: Step, w': World)
    requires Inv(w) && Next(w, s, w') && Courteous(w, s) && MutexStep(s)
    ensures Inv(w')
  {
    hide Inv;
    match s
    case Spawn(f) => PreserveMutex.SpawnKeeps(w, f, w');
    case Dispatch => PreserveMutex.DispatchKeeps(w, w');
    case Lock(f, m) => PreserveMutex.LockKeeps(w, f, m, w');
    case Trylock(f, m) => PreserveMutex.TrylockKeeps(w, f, m, 1, w');
    case Timedlock(f, m, t) => PreserveMutex.TrylockKeeps(w, f, m, t, w');
    case TimedlockSlow(f) =>
      assert 0 < ToInt64(w.Ctl(f).timeout) by { FiberPart(w, f); }
      PreserveMutex.TimedlockSlowKeeps(w, f, w');
    case Unlock(f, m) => PreserveMutex.UnlockKeeps(w, f, m, w');
    case UnlockFast(f) => PreserveMutex.UnlockFastKeeps(w, f, w');
    case UnlockHandoff(f) => PreserveMutex.HandoffKeeps(w, f, w');
  }

  lemma CondStepKeeps(w: World, s: Step, w': World)
    requires Inv(w) && Next(w, s, w') && Courteous(w, s) && CondStep(s)
    ensures Inv(w')
  {
    hide Inv, DoCondWait, DoCondTimedwait, DoCondRelease, DoSignalBegin, DoSignalOne, DoSignalEnd;
    match s
    case CondWait(f, c, m) => PreserveCond.EnqueueKeeps(w, f, c, m, 1, w');
    case CondTimedwait(f, c, m, t) => PreserveCond.EnqueueKeeps(w, f, c, m, t, w');
    case CondRelease(f) => PreserveCond.ReleaseKeeps(w, f, w');
    case SignalBegin(f, c, nb) => PreserveCond.SignalBeginKeeps(w, f, c, nb, w');
    case SignalOne(f) => PreserveCond.SignalOneKeeps(w, f, w');
    case SignalEnd(f) => PreserveCond.SignalEndKeeps(w, f, w');
  }

  lemma OtherStepKeeps(w: World, s: Step, w': World)
    requires Inv(w) && Next(w, s, w') && Courteous(w, s) && !MutexStep(s) && !CondStep(s)
    ensures Inv(w')
  {
    hide Inv;
    match s
    case Usleep(f, timer) => PreserveTimer.UsleepKeeps(w, f, timer, w');
    case Waitfor(f, fd, events, deadline) => PreserveIo.WaitforKeeps(w, f, fd, events, deadline, w');
    case Close(_, fd, closes) => PreserveIo.CloseKeeps(w, fd, closes, w');
    case Cancelio(_, fd) => PreserveIo.FlushBothKeeps(w, fd, true, w');
    case Deliver(fd, event) => PreserveIo.DeliverKeeps(w, fd, event, w');
    case Handle(fd) => PreserveIo.HandleKeeps(w, fd, w');
    case RawClose(fd) => PreserveIo.RawCloseKeeps(w, fd, w');
    case Fire(_) => PreserveTimer.FireKeeps(w, w');
    case TimerSleep(_) => PreserveTimer.TimerThreadKeeps(w, w');
    case TimerWake => PreserveTimer.TimerThreadKeeps(w, w');
  }

  /** Every step of a fiber, of the timer thread, of the reactor or of the kernel keeps the invariant. */
  lemma NextKeeps(w: World, s: Step, w': World)
    requires Inv(w) && Next(w, s, w') && Courteous(w, s)
    ensures Inv(w')
  {
    hide Inv, Next, Courteous;
    if MutexStep(s) {
      MutexStepKeeps(w, s, w');
    } else if CondStep(s) {
      CondStepKeeps(w, s, w');
    } else {
      OtherStepKeeps(w, s, w');
    }
  }

  ghost predicate CourteousRun(ws: seq<World>, steps: seq<Step>) {
    && Run(ws, steps)
    && forall i :: 0 <= i < |steps| ==> Courteous(ws[i], steps[i])
  }

  lemma {:induction false} RunInv(ws: seq<World>, steps: seq<Step>, i: nat)
    requires CourteousRun(ws, steps) && i < |ws|
    ensures Inv(ws[i])
  {
    hide Inv, Init, Next, Courteous;
    if i == 0 {
      InitInv(ws[0]);
    } else {
      RunInv(ws, steps, i - 1);
      NextKeeps(ws[i - 1], steps[i - 1], ws[i]);
    }
  }
}

/** When the program stops: exactly which steps fail an assertion or unlink a fiber from a ring
    that does not contain it. */
module Faults {
  import opened Memory
  import opened Machine
  import opened Invariant
  import PreserveCond
  import PreserveIo

  /** The branches of the code that fail, in terms of what can be seen before the step. */
  ghost predicate FaultCause(w: World, s: Step) {
    match s
    case Lock(f, m) => w.Owns(f, m) && !w.mem.M(m).isRecursive
    case CondWait(f, _, m) => !w.Owns(f, m)
    case CondTimedwait(f, _, m, _) => !w.Owns(f, m)
    case SignalOne(f) =>
      Enabled(w, s) && StillOwns(w, w.mem.C(w.Ctl(f).cond)[0])
    case Fire(_) =>
      Enabled(w, s) && (StillOwns(w, w.mem.timerQueue[0]) || IsDropped(w, w.mem.timerQueue[0]))
    case Waitfor(_, _, events, _) => !events.read && !events.write
    case _ => false
  }

  /** `x` is between its push on the condition's queue and the release of the mutex. */
  ghost predicate StillOwns(w: World, x: FiberId) {
    w.Ctl(x).Waiting? && w.Owns(x, w.Ctl(x).mutex)
  }

  /** `x` was left in the local list of a melon_cond_signalnb. */
  ghost predicate IsDropped(w: World, x: FiberId) {
    w.Ctl(x).Waiting? && w.Ctl(x).dropped
  }

  lemma LockFaults(w: World, f: FiberId, m: MutexId)
    ensures DoLock(w, f, m).Failed? <==> w.Owns(f, m) && !w.mem.M(m).isRecursive
  {
  }

  lemma UnlockNeverFaults(w: World, f: FiberId, m: MutexId)
    requires Inv(w) && w.Ctl(f) == Running && w.Owns(f, m)
    ensures DoUnlock(w, f, m).Ok?
  {
    hide Inv;
    MutexPart(w, m);
  }

  lemma HandoffNeverFaults(w: World, f: FiberId)
    requires Inv(w) && ReleasingMutex(w.Ctl(f)).Some?
    ensures DoUnlockHandoff(w, f).Ok?
  {
    var m := ReleasingMutex(w.Ctl(f)).value.0;
    var q := w.mem.M(m).lockQueue;
    if q != [] {
      assert q[0] in w.mem.Queue(LockQueue(m));
      assert w.Ctl(q[0]).Locking?;
      assert q[0] in w.mem.timerQueue <==> InTimers(w.Ctl(q[0]));
      FiberPart(w, q[0]);
      hide Inv;
    }
  }

  lemma CondWaitFaults(w: World, f: FiberId, c: CondId, m: MutexId, t: nat)
    ensures DoCondWait(w, f, c, m).Failed? <==> !w.Owns(f, m)
    ensures DoCondTimedwait(w, f, c, m, t).Failed? <==> !w.Owns(f, m)
  {
  }

  lemma SignalOneFaults(w: World, f: FiberId)
    requires Inv(w) && Enabled(w, Step.SignalOne(f))
    ensures DoSignalOne(w, f).Failed? <==> StillOwns(w, w.mem.C(w.Ctl(f).cond)[0])
  {
    var c := w.Ctl(f).cond;
    var x := w.mem.C(c)[0];
    QueueParts(w);
    PreserveCond.SignalHead(w, f, c, x);
    FiberPart(w, x);
    MutexPart(w, w.Ctl(x).mutex);
    assert x in w.mem.timerQueue <==> InTimers(w.Ctl(x));
    hide Inv, Places, Timers;
  }

  lemma FireFaults(w: World)
    requires Inv(w) && w.mem.timerQueue != []
    ensures DoFire(w).Failed? <==> StillOwns(w, w.mem.timerQueue[0]) || IsDropped(w, w.mem.timerQueue[0])
    ensures DoFire(w) == Failed(BadUnlink) <==> IsDropped(w, w.mem.timerQueue[0])
  {
    var x := w.mem.timerQueue[0];
    assert x in w.mem.timerQueue && InTimers(w.Ctl(x));
    FiberPart(w, x);
    match w.Ctl(x) {
      case Locking(m, _) =>
        assert x in w.mem.Queue(LockQueue(m));
        hide Inv, Places, Timers;
      case Waiting(c, m, _, _, dropped) =>
        MutexPart(w, m);
        assert x in w.mem.Queue(WaitQueue(c)) <==> !dropped;
        hide Inv, Places, Timers;
      case Polling(fd, dir, _) =>
        assert x in w.mem.Queue(FdQueue(fd, dir));
        hide Inv, Places, Timers;
      case _ =>
        hide Inv, Places, Timers;
    }
  }

  lemma PopNeverFaults(w: World, fd: Fd, dir: Direction, cancel: bool)
    requires Inv(w)
    ensures PopOne(w, fd, dir, cancel).Ok?
  {
    var q := w.mem.D(fd).Queue(dir);
    if q != [] {
      QueueParts(w);
      PreserveIo.PopHead(w, fd, dir, q[0]);
      assert q[0] in w.mem.timerQueue <==> InTimers(w.Ctl(q[0]));
      FiberPart(w, q[0]);
      hide Inv, Places, Timers;
    }
  }

  lemma {:induction false} FlushNeverFaults(w: World, fd: Fd, dir: Direction, cancel: bool)
    requires Inv(w)
    ensures FlushOne(w, fd, dir, cancel).Ok?
    decreases |w.mem.D(fd).Queue(dir)|
  {
    hide Inv;
    if w.mem.D(fd).Queue(dir) != [] {
      PopNeverFaults(w, fd, dir, cancel);
      var w1 := PopOne(w, fd, dir, cancel).value;
      PreserveIo.PopKeeps(w, fd, dir, cancel, w1);
      FlushNeverFaults(w1, fd, dir, cancel);
    }
  }

  lemma FlushBothNeverFaults(w: World, fd: Fd, cancel: bool)
    requires Inv(w)
    ensures FlushBoth(w, fd, cancel).Ok?
  {
    hide Inv;
    FlushNeverFaults(w, fd, Read, cancel);
    var w1 := FlushOne(w, fd, Read, cancel).value;
    PreserveIo.FlushKeeps(w, fd, Read, cancel, w1);
    FlushNeverFaults(w1, fd, Write, cancel);
  }

  lemma HandleNeverFaults(w: World, fd: Fd)
    requires Inv(w) && w.mem.D(fd).pending.Some?
    ensures DoHandle(w, fd).Ok?
  {
    hide Inv;
    var event := w.mem.D(fd).pending.value;
    if event.hup { FlushBothNeverFaults(w, fd, false); }
    var w1 := if event.hup then FlushBoth(w, fd, false).value else w;
    if event.hup { PreserveIo.FlushBothKeeps(w, fd, false, w1); }
    PopNeverFaults(w1, fd, Read, false);
    var w2 := if event.readable then PopOne(w1, fd, Read, false).value else w1;
    if event.readable { PreserveIo.PopKeeps(w1, fd, Read, false, w2); }
    PopNeverFaults(w2, fd, Write, false);
  }

  lemma BlockingFaults(w: World, s: Step)
    requires Inv(w) && Enabled(w, s)
    requires s.Lock? || s.Unlock? || s.UnlockHandoff? || s.CondWait? || s.CondTimedwait? || s.SignalOne?
    ensures Apply(w, s).Failed? <==> FaultCause(w, s)
  {
    hide Inv;
    match s
    case Lock(f, m) => LockFaults(w, f, m);
    case Unlock(f, m) => UnlockNeverFaults(w, f, m);
    case UnlockHandoff(f) => HandoffNeverFaults(w, f);
    case CondWait(f, c, m) => CondWaitFaults(w, f, c, m, 1);
    case CondTimedwait(f, c, m, t) => CondWaitFaults(w, f, c, m, t);
    case SignalOne(f) => SignalOneFaults(w, f);
  }

  lemma IoAndTimerFaults(w: World, s: Step)
    requires Inv(w) && Enabled(w, s)
    requires s.Waitfor? || s.Close? || s.Cancelio? || s.Handle? || s.Fire?
    ensures Apply(w, s).Failed? <==> FaultCause(w, s)
  {
    hide Inv;
    match s
    case Waitfor(f, fd, events, t) => WaitforFaults(w, f, fd, events, t);
    case Close(_, fd, _) => FlushBothNeverFaults(w, fd, true);
    case Cancelio(_, fd) => FlushBothNeverFaults(w, fd, true);
    case Handle(fd) => HandleNeverFaults(w, fd);
    case Fire(_) => FireFaults(w);
  }

  /** A step fails exactly for the causes listed; in particular no waker ever finds that a fiber
      with a positive timer is missing from the timer queue. */
  lemma FaultsExactly(w: World, s: Step)
    requires Inv(w) && Enabled(w, s)
    ensures Apply(w, s).Failed? <==> FaultCause(w, s)
  {
    if s.Lock? || s.Unlock? || s.UnlockHandoff? || s.CondWait? || s.CondTimedwait? || s.SignalOne? {
      BlockingFaults(w, s);
    } else if s.Waitfor? || s.Close? || s.Cancelio? || s.Handle? || s.Fire? {
      IoAndTimerFaults(w, s);
    } else {
      hide Inv;
    }
  }

  lemma WaitforFaults(w: World, f: FiberId, fd: Fd, events: Events, t: int)
    ensures DoWaitfor(w, f, fd, events, t).Failed? <==> !events.read && !events.write
  {
  }

  /** A signaller that owns the mutex of a waiter cannot fail on that waiter. */
  lemma OwningSignallerNeverFaults(w: World, f: FiberId)
    requires Inv(w) && Enabled(w, Step.SignalOne(f))
    requires var saved := w.mem.F(w.mem.C(w.Ctl(f).cond)[0]).condMutex; saved.Some? && w.Owns(f, saved.value)
    ensures Apply(w, Step.SignalOne(f)).Ok?
  {
    FiberPart(w, w.mem.C(w.Ctl(f).cond)[0]);
    SignalOneFaults(w, f);
    QueueParts(w);
    PreserveCond.SignalHead(w, f, w.Ctl(f).cond, w.mem.C(w.Ctl(f).cond)[0]);
  }
}

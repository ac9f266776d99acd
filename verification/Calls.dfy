/** What other fibers' steps do to a fiber that is inside a call of the runtime. */
module Calls {
  import opened Memory
  import opened Machine
  import opened Invariant
  import Theorems
  import Outcomes
  import Regions

  /** The fiber that takes the step, or that a kernel thread resumes. */
  function Actor(w: World, s: Step): Option<FiberId> {
    match s
    case Dispatch => if w.mem.ready == [] then None else Some(w.mem.ready[0])
    case Deliver(_, _) => None
    case Handle(_) => None
    case RawClose(_) => None
    case Fire(_) => None
    case TimerSleep(_) => None
    case TimerWake => None
    case _ => Some(s.f)
  }

  /** The first step of a call: it can be taken by any running fiber. */
  predicate IsCall(s: Step) {
    s.Lock? || s.Trylock? || s.Timedlock? || s.Unlock? || s.CondWait? || s.CondTimedwait? || s.SignalBegin?
    || s.Usleep? || s.Waitfor? || s.Close? || s.Cancelio?
  }

  /** A position in which only the fiber's own step, or its dispatch, can move it. */
  predicate Settled(ctl: Control) {
    ctl.Running? || ctl.Runnable? || ctl.RetryTimedlock? || ctl.SignalLoop? || ctl.Unlocking?
  }

  ghost predicate Still(w: World, w': World, f: FiberId) {
    w'.Ctl(f) == w.Ctl(f) && w'.Ret(f) == w.Ret(f)
  }

  lemma StillLocking(w: World, s: Step, w': World, f: FiberId)
    requires Next(w, s, w') && Actor(w, s) != Some(f)
    requires s.Spawn? || s.Dispatch? || s.Lock? || s.Trylock? || s.Timedlock? || s.TimedlockSlow? || s.Unlock?
        || s.UnlockFast?
    ensures Still(w, w', f)
  {
  }

  lemma StillWaiting(w: World, s: Step, w': World, f: FiberId)
    requires Next(w, s, w') && Actor(w, s) != Some(f)
    requires s.CondWait? || s.CondTimedwait? || s.CondRelease? || s.SignalBegin? || s.Usleep? || s.Waitfor?
    ensures Still(w, w', f)
  {
  }

  lemma StillKernel(w: World, s: Step, w': World, f: FiberId)
    requires Next(w, s, w') && (s.Deliver? || s.RawClose? || s.TimerSleep? || s.TimerWake?)
    ensures Still(w, w', f)
  {
  }

  lemma StillHandoff(w: World, g: FiberId, w': World, f: FiberId)
    requires Inv(w) && Next(w, UnlockHandoff(g), w') && g != f && Settled(w.Ctl(f))
    ensures Still(w, w', f)
  {
    var m := ReleasingMutex(w.Ctl(g)).value.0;
    var q := w.mem.M(m).lockQueue;
    if q != [] {
      Outcomes.QueueMembership(w, q[0], LockQueue(m));
      assert w.Ctl(q[0]).Locking?;
      assert q[0] != f;
    }
    hide Inv;
  }

  lemma StillSignal(w: World, g: FiberId, w': World, f: FiberId)
    requires Inv(w) && Next(w, Step.SignalOne(g), w') && g != f && Settled(w.Ctl(f))
    ensures Still(w, w', f)
  {
    var c := w.Ctl(g).cond;
    Outcomes.QueueMembership(w, w.mem.C(c)[0], WaitQueue(c));
    assert w.mem.C(c)[0] != f;
    hide Inv;
  }

  lemma StillSignalEnd(w: World, g: FiberId, w': World, f: FiberId)
    requires Next(w, SignalEnd(g), w') && g != f && Settled(w.Ctl(f))
    ensures Still(w, w', f)
  {
  }

  lemma StillFire(w: World, now: int, w': World, f: FiberId)
    requires Inv(w) && Next(w, Fire(now), w') && Settled(w.Ctl(f))
    ensures Still(w, w', f)
  {
    var x := w.mem.timerQueue[0];
    Outcomes.QueueMembership(w, x, ReadyQueue);
    assert x in w.mem.timerQueue;
    assert x != f;
    hide Inv;
  }

  // ---- The reactor returns nothing to anybody -----------------------------------------------

  lemma {:induction false} FlushKeepsRet(w: World, fd: Fd, dir: Direction, cancel: bool)
    ensures FlushOne(w, fd, dir, cancel).Ok? ==> FlushOne(w, fd, dir, cancel).value.ret == w.ret
    decreases |w.mem.D(fd).Queue(dir)|
  {
    if w.mem.D(fd).Queue(dir) != [] && PopOne(w, fd, dir, cancel).Ok? {
      Regions.ReleaseShrinks(w.mem, fd, dir, cancel);
      assert PopOne(w, fd, dir, cancel).value.ret == w.ret;
      hide PopOne;
      FlushKeepsRet(PopOne(w, fd, dir, cancel).value, fd, dir, cancel);
    }
  }

  lemma FlushBothKeepsRet(w: World, fd: Fd, cancel: bool)
    ensures FlushBoth(w, fd, cancel).Ok? ==> FlushBoth(w, fd, cancel).value.ret == w.ret
  {
    hide FlushOne;
    FlushKeepsRet(w, fd, Read, cancel);
    if FlushOne(w, fd, Read, cancel).Ok? { FlushKeepsRet(FlushOne(w, fd, Read, cancel).value, fd, Write, cancel); }
  }

  lemma PopKeepsRet(w: World, fd: Fd, dir: Direction, cancel: bool)
    ensures PopOne(w, fd, dir, cancel).Ok? ==> PopOne(w, fd, dir, cancel).value.ret == w.ret
  {
  }

  lemma HandleKeepsRet(w: World, fd: Fd)
    requires w.mem.D(fd).pending.Some? && DoHandle(w, fd).Ok?
    ensures DoHandle(w, fd).value.ret == w.ret
  {
    hide FlushBoth, PopOne;
    var event := w.mem.D(fd).pending.value;
    FlushBothKeepsRet(w, fd, false);
    var w1 := if event.hup then FlushBoth(w, fd, false).value else w;
    PopKeepsRet(w1, fd, Read, false);
    var w2 := if event.readable then PopOne(w1, fd, Read, false).value else w1;
    PopKeepsRet(w2, fd, Write, false);
  }

  lemma StillIo(w: World, s: Step, w': World, f: FiberId)
    requires Inv(w) && Next(w, s, w') && (s.Handle? || s.Close? || s.Cancelio?) && Settled(w.Ctl(f))
    ensures Still(w, w', f)
  {
    Outcomes.IoMovesPolling(w, s, w');
    hide Inv, FlushBoth, DoHandle;
    match s
    case Close(_, fd, _) => FlushBothKeepsRet(w, fd, true);
    case Cancelio(_, fd) => FlushBothKeepsRet(w, fd, true);
    case Handle(fd) => HandleKeepsRet(w, fd);
  }

  /** A settled fiber moves only by its own step. */
  lemma Undisturbed(w: World, s: Step, w': World, f: FiberId)
    requires Inv(w) && Next(w, s, w') && Settled(w.Ctl(f)) && Actor(w, s) != Some(f)
    ensures Still(w, w', f)
  {
    hide Inv, Next, Still, Settled;
    if s.UnlockHandoff? {
      StillHandoff(w, s.f, w', f);
    } else if s.SignalOne? {
      StillSignal(w, s.f, w', f);
    } else if s.SignalEnd? {
      StillSignalEnd(w, s.f, w', f);
    } else if s.Fire? {
      StillFire(w, s.now, w', f);
    } else if s.Handle? || s.Close? || s.Cancelio? {
      StillIo(w, s, w', f);
    } else if s.Deliver? || s.RawClose? || s.TimerSleep? || s.TimerWake? {
      StillKernel(w, s, w', f);
    } else if s.CondWait? || s.CondTimedwait? || s.CondRelease? || s.SignalBegin? || s.Usleep? || s.Waitfor? {
      StillWaiting(w, s, w', f);
    } else {
      StillLocking(w, s, w', f);
    }
  }

  /** Nobody takes the mutex away from an owner that is not releasing it. */
  lemma StillOwner(w: World, s: Step, w': World, f: FiberId, m: MutexId)
    requires Inv(w) && Next(w, s, w') && w.Owns(f, m)
    requires Actor(w, s) == Some(f) ==> !s.UnlockFast? && !s.UnlockHandoff?
    ensures w'.Owns(f, m)
  {
    hide Inv, Next;
    Theorems.MutexEvolves(w, s, w', m);
  }

  // ---- How a call goes on until it returns --------------------------------------------------

  /** `f` is inside a call of melon_mutex_lock or melon_mutex_timedlock. */
  predicate InLock(ctl: Control, m: MutexId, timed: bool) {
    match ctl
    case RetryTimedlock(n, _) => n == m && timed
    case Locking(n, ByLock) => n == m && !timed
    case Locking(n, ByTimedlock(_)) => n == m && timed
    case Runnable(FromLock(n)) => n == m && !timed
    case Runnable(FromTimedlock(n, _, _)) => n == m && timed
    case _ => false
  }

  /** The call has returned: the fiber owns the mutex, unless it got -ETIMEDOUT. */
  ghost predicate LockDone(w: World, f: FiberId, m: MutexId, timed: bool) {
    w.Ctl(f) == Running && ((timed && w.Ret(f) != RetOk) || w.Owns(f, m))
  }

  /** `f` is inside a call of melon_cond_wait or melon_cond_timedwait. */
  predicate InWait(ctl: Control, m: MutexId) {
    match ctl
    case Waiting(_, n, _, _, _) => n == m
    case Locking(n, ByCond(_, _, _)) => n == m
    case Runnable(FromCond(_, n, _, _)) => n == m
    case _ => false
  }

  lemma LockCall(w: World, f: FiberId, m: MutexId, w': World)
    requires Next(w, Lock(f, m), w')
    ensures InLock(w'.Ctl(f), m, false) || LockDone(w', f, m, false)
  {
  }

  lemma TimedlockCall(w: World, f: FiberId, m: MutexId, t: nat, w': World)
    requires Next(w, Timedlock(f, m, t), w')
    ensures InLock(w'.Ctl(f), m, true) || LockDone(w', f, m, true)
  {
  }

  lemma WaitCall(w: World, f: FiberId, c: CondId, m: MutexId, t: nat, w': World)
    requires Next(w, CondWait(f, c, m), w') || Next(w, CondTimedwait(f, c, m, t), w')
    ensures InWait(w'.Ctl(f), m)
  {
  }

  /** A fiber in a lock queue stays there, or becomes runnable. */
  lemma LockingGoesOn(w: World, s: Step, w': World, f: FiberId)
    requires Inv(w) && Next(w, s, w') && w.Ctl(f).Locking?
    ensures w'.Ctl(f) == w.Ctl(f) || w'.Ctl(f) == Granted(w.Ctl(f))
        || (w.Ctl(f).how.ByTimedlock? && w'.Ctl(f) == Fired(w.mem, w.Ctl(f)))
  {
    Outcomes.LockWaiterMoves(w, s, w', f);
    Outcomes.QueueMembership(w, f, ReadyQueue);
    hide Inv, Next;
    if s.Fire? && w.mem.timerQueue != [] && w.mem.timerQueue[0] == f {
      assert f in w.mem.timerQueue;
    }
  }

  lemma RetryGoesOn(w: World, s: Step, w': World, f: FiberId)
    requires Next(w, s, w') && Actor(w, s) == Some(f) && w.Ctl(f).RetryTimedlock? && !s.Dispatch?
    ensures InLock(w'.Ctl(f), w.Ctl(f).mutex, true) || LockDone(w', f, w.Ctl(f).mutex, true)
  {
    hide Regions.TimedlockSlow;
    TimedlockSlowTakes(w, f);
  }

  lemma TimedlockSlowTakes(w: World, f: FiberId)
    ensures w.Ctl(f).RetryTimedlock? ==>
              var (mem, queued) := Regions.TimedlockSlow(w.mem, f, w.Ctl(f).mutex, ToInt64(w.Ctl(f).timeout));
              !queued ==> mem.M(w.Ctl(f).mutex).owner == Some(f)
  {
  }

  /** A runnable fiber is runnable until a kernel thread resumes it. */
  lemma RunnableGoesOn(w: World, s: Step, w': World, f: FiberId)
    requires Inv(w) && Next(w, s, w') && w.Ctl(f).Runnable?
    ensures w'.Ctl(f) == w.Ctl(f) || (s.Dispatch? && w.mem.ready != [] && w.mem.ready[0] == f)
  {
    hide Inv, Next;
    if Actor(w, s) == Some(f) {
      OnlyDispatch(w, s, w', f);
    } else {
      Undisturbed(w, s, w', f);
    }
  }

  lemma OnlyDispatch(w: World, s: Step, w': World, f: FiberId)
    requires Next(w, s, w') && Actor(w, s) == Some(f) && w.Ctl(f).Runnable?
    ensures s.Dispatch?
  {
  }

  lemma NotDispatched(w: World, s: Step, f: FiberId)
    requires Inv(w) && Enabled(w, s) && Actor(w, s) == Some(f) && !w.Ctl(f).Runnable?
    ensures !s.Dispatch?
  {
    Outcomes.QueueMembership(w, f, ReadyQueue);
    assert s.Dispatch? ==> f in w.mem.Queue(ReadyQueue);
  }

  /** melon_mutex_lock and melon_mutex_timedlock return to an owner, or with -ETIMEDOUT. */
  lemma LockGoesOn(w: World, s: Step, w': World, f: FiberId, m: MutexId, timed: bool)
    requires Inv(w) && Inv(w') && Next(w, s, w') && InLock(w.Ctl(f), m, timed)
    ensures InLock(w'.Ctl(f), m, timed) || LockDone(w', f, m, timed)
  {
    hide Inv, Next, LockDone;
    match w.Ctl(f)
    case RetryTimedlock(_, _) =>
      if Actor(w, s) == Some(f) {
        assert Enabled(w, s) by { EnabledStep(w, s, w'); }
        NotDispatched(w, s, f);
        RetryGoesOn(w, s, w', f);
      } else {
        Undisturbed(w, s, w', f);
      }
    case Locking(_, _) => LockingGoesOn(w, s, w', f);
    case Runnable(from) =>
      RunnableGoesOn(w, s, w', f);
      if w'.Ctl(f) != w.Ctl(f) { LockIsDone(w, w', f, from, m, timed); }
  }

  lemma EnabledStep(w: World, s: Step, w': World)
    requires Next(w, s, w')
    ensures Enabled(w, s)
  {
  }

  lemma LockIsDone(w: World, w': World, f: FiberId, from: Return, m: MutexId, timed: bool)
    requires Inv(w) && Next(w, Dispatch, w') && w.mem.ready != [] && f == w.mem.ready[0]
    requires w.Ctl(f) == Runnable(from) && InLock(Runnable(from), m, timed)
    ensures LockDone(w', f, m, timed)
  {
    hide Inv, Next;
    Outcomes.DispatchFacts(w, w', f);
    match from
    case FromLock(_) => Outcomes.LockReturns(w, w', f, m);
    case FromTimedlock(_, owned, expired) => Outcomes.TimedlockReturns(w, w', f, m, owned, expired);
  }

  /** melon_cond_wait and melon_cond_timedwait return to an owner. */
  lemma WaitGoesOn(w: World, s: Step, w': World, f: FiberId, m: MutexId)
    requires Inv(w) && Inv(w') && Next(w, s, w') && InWait(w.Ctl(f), m)
    ensures InWait(w'.Ctl(f), m) || (w'.Ctl(f) == Running && w'.Owns(f, m))
  {
    hide Inv, Next;
    match w.Ctl(f)
    case Waiting(_, _, _, _, _) => Outcomes.CondWaiterMoves(w, s, w', f);
    case Locking(_, _) => LockingGoesOn(w, s, w', f);
    case Runnable(FromCond(c, _, timed, expired)) =>
      RunnableGoesOn(w, s, w', f);
      if w'.Ctl(f) != w.Ctl(f) {
        Outcomes.DispatchFacts(w, w', f);
        Outcomes.CondWaitReturns(w, w', f, c, m, timed, expired);
      }
  }

  lemma SignalStepSelf(w: World, s: Step, w': World, f: FiberId)
    requires Inv(w) && Next(w, s, w') && w.Ctl(f).SignalLoop? && Actor(w, s) == Some(f)
    ensures s.SignalOne? || s.SignalEnd?
    ensures w'.Ctl(f).SignalLoop? || w'.Ctl(f) == Running
  {
    NotDispatched(w, s, f);
    if s.SignalOne? {
      Outcomes.QueueMembership(w, w.mem.C(w.Ctl(f).cond)[0], WaitQueue(w.Ctl(f).cond));
      assert w.mem.C(w.Ctl(f).cond)[0] != f;
    }
    hide Inv;
  }

  /** A signaller that owns a mutex still owns it when melon_cond_signalnb returns. */
  lemma SignalGoesOn(w: World, s: Step, w': World, f: FiberId, m: MutexId)
    requires Inv(w) && Next(w, s, w') && w.Ctl(f).SignalLoop? && w.Owns(f, m)
    ensures (w'.Ctl(f).SignalLoop? || w'.Ctl(f) == Running) && w'.Owns(f, m)
  {
    hide Inv, Next;
    if Actor(w, s) == Some(f) {
      SignalStepSelf(w, s, w', f);
    } else {
      Undisturbed(w, s, w', f);
    }
    StillOwner(w, s, w', f, m);
  }

  // ---- Who can be made ready ----------------------------------------------------------------

  /** A fiber that has stopped: it waits in a queue or for its timer, or has not started. */
  predicate Stopped(ctl: Control) {
    ctl.Locking? || ctl.Waiting? || ctl.Polling? || ctl.Sleeping? || ctl.NotStarted?
  }

  lemma SelfNotReady(w: World, s: Step, w': World, f: FiberId)
    requires Inv(w) && Next(w, s, w') && Settled(w.Ctl(f)) && !w.Ctl(f).Runnable? && Actor(w, s) == Some(f)
    requires !s.Close? && !s.Cancelio?
    ensures !w'.Ctl(f).Runnable?
  {
    NotDispatched(w, s, f);
    if s.SignalOne? {
      SignalStepSelf(w, s, w', f);
    } else if s.UnlockHandoff? {
      HandoffSelf(w, f, w');
    }
    hide Inv;
  }

  lemma HandoffSelf(w: World, f: FiberId, w': World)
    requires Inv(w) && Next(w, UnlockHandoff(f), w') && w.Ctl(f).Unlocking?
    ensures w'.Ctl(f) == Running
  {
    var m := w.Ctl(f).mutex;
    if w.mem.M(m).lockQueue != [] {
      Outcomes.QueueMembership(w, w.mem.M(m).lockQueue[0], LockQueue(m));
    }
    hide Inv;
  }

  lemma ReadyOnce(w: World)
    requires Inv(w)
    ensures Distinct(w.mem.ready)
  {
    hide Inv, Distinct;
    QueueParts(w);
    assert Distinct(w.mem.Queue(ReadyQueue));
  }

  /** A stop yields at most one wake-up: only a fiber that has stopped becomes ready, and being ready
      it cannot become ready again before it is dispatched. */
  lemma WakeEndsAStop(w: World, s: Step, w': World, f: FiberId)
    requires Inv(w) && Inv(w') && Next(w, s, w')
    requires f !in w.mem.ready && f in w'.mem.ready
    ensures Stopped(w.Ctl(f)) && Distinct(w'.mem.ready)
  {
    hide Inv, Next;
    Outcomes.QueueMembership(w, f, ReadyQueue);
    Outcomes.QueueMembership(w', f, ReadyQueue);
    ReadyOnce(w');
    if Settled(w.Ctl(f)) {
      if Actor(w, s) != Some(f) {
        Undisturbed(w, s, w', f);
      } else if s.Close? || s.Cancelio? {
        Outcomes.IoMovesPolling(w, s, w');
      } else {
        SelfNotReady(w, s, w', f);
      }
    }
  }
}

/** Deadlines over runs: a stopped fiber keeps the timer that its call has set, so no call times out and
    nobody wakes from a sleep before its time. */
module Deadlines {
  import opened Memory
  import opened Machine
  import opened Invariant
  import Regions
  import Safety
  import Outcomes
  import Calls
  import Returns
  import Threads
  import PreserveCond
  import PreserveTimer
  import IoLaws
  import MutexLaws

  // ---- A stopped fiber keeps its fields -----------------------------------------------------

  /** The fiber is stopped where it was; a waiter may have given up its mutex, or been dropped. */
  predicate StillThere(ctl: Control, ctl': Control) {
    Calls.Stopped(ctl) && !ctl.NotStarted? && (ctl' == ctl || (ctl.Waiting? && ctl'.Waiting?))
  }

  lemma AttemptFields(w: World, s: Step, w': World, x: FiberId)
    requires Next(w, s, w') && MutexLaws.IsAttempt(s) && x != s.f
    ensures w'.mem.F(x) == w.mem.F(x)
  {
  }

  lemma ReleaseFields(w: World, s: Step, w': World)
    requires Next(w, s, w') && (s.Unlock? || s.UnlockFast? || s.CondRelease?)
    ensures w'.mem.fibers == w.mem.fibers
  {
  }

  lemma HandoffFields(w: World, f: FiberId, w': World, x: FiberId)
    requires Inv(w) && Next(w, UnlockHandoff(f), w') && StillThere(w.Ctl(x), w'.Ctl(x))
    ensures w'.mem.F(x) == w.mem.F(x)
  {
    hide Inv;
    MutexLaws.HandoffEffect(w, f, w');
    HandoffMemory(w, f, w');
    hide Next;
    OtherThanNext(w.mem, ReleasingMutex(w.Ctl(f)).value.0, w'.mem, x);
  }

  lemma HandoffMemory(w: World, f: FiberId, w': World)
    requires Next(w, UnlockHandoff(f), w')
    ensures ReleasingMutex(w.Ctl(f)).Some?
    ensures Regions.UnlockHandoff(w.mem, ReleasingMutex(w.Ctl(f)).value.0) == Ok(w'.mem)
  {
    hide Regions.UnlockHandoff;
  }

  lemma OtherThanNext(mem: Mem, m: MutexId, mem': Mem, x: FiberId)
    requires Regions.UnlockHandoff(mem, m) == Ok(mem') && (mem.M(m).lockQueue != [] ==> x != mem.M(m).lockQueue[0])
    ensures mem'.F(x) == mem.F(x)
  {
  }

  lemma EntryFields(w: World, s: Step, w': World, x: FiberId)
    requires Next(w, s, w') && (s.Usleep? || s.Waitfor? || s.Spawn?) && x != s.f
    ensures w'.mem.F(x) == w.mem.F(x)
  {
    if s.Waitfor? {
      IoLaws.WaitforExactly(w, s.f, s.fd, s.events, s.deadline, w');
      hide Next;
    }
  }

  lemma WaitFields(w: World, s: Step, w': World, x: FiberId)
    requires Next(w, s, w') && (s.CondWait? || s.CondTimedwait?) && x != s.f
    ensures w'.mem.F(x) == w.mem.F(x)
  {
  }

  lemma SignalFields(w: World, f: FiberId, w': World, x: FiberId)
    requires Inv(w) && Next(w, Step.SignalOne(f), w') && StillThere(w.Ctl(x), w'.Ctl(x))
    ensures w'.mem.F(x) == w.mem.F(x)
  {
    hide Inv, Regions.SignalOne, FiberOk, PreserveCond.RelocksOn;
    MutexLaws.SignalWakes(w, f, w');
    SignalMemory(w, f, w');
    hide Next;
    OtherThanHead(w.mem, w.Ctl(f).cond, w'.mem, x);
  }

  lemma SignalMemory(w: World, f: FiberId, w': World)
    requires Next(w, Step.SignalOne(f), w')
    ensures w.Ctl(f).SignalLoop? && w.mem.C(w.Ctl(f).cond) != []
    ensures Regions.SignalOne(w.mem, w.Ctl(f).cond) == Ok(w'.mem)
  {
    hide Regions.SignalOne;
  }

  lemma OtherThanHead(mem: Mem, c: CondId, mem': Mem, x: FiberId)
    requires mem.C(c) != [] && Regions.SignalOne(mem, c) == Ok(mem') && x != mem.C(c)[0]
    ensures mem'.F(x) == mem.F(x)
  {
  }

  lemma FireFields(w: World, now: int, w': World, x: FiberId)
    requires Inv(w) && Next(w, Fire(now), w') && StillThere(w.Ctl(x), w'.Ctl(x))
    ensures w'.mem.F(x) == w.mem.F(x)
  {
    hide Inv, Next, PreserveTimer.Fires;
    MutexLaws.TimerFires(w, now, w');
    var f := w.mem.timerQueue[0];
    PreserveTimer.FireControl(w, f, w');
    if x != f { PreserveTimer.FireFibers(w, f, w', x); } else { FiredLeaves(w, f, w'); }
  }

  lemma FiredLeaves(w: World, f: FiberId, w': World)
    requires PreserveTimer.Fires(w, f, w')
    ensures !StillThere(w.Ctl(f), w'.Ctl(f))
  {
  }

  lemma IoFields(w: World, s: Step, w': World, x: FiberId)
    requires Inv(w) && Next(w, s, w') && (s.Handle? || s.Close? || s.Cancelio?) && StillThere(w.Ctl(x), w'.Ctl(x))
    ensures w'.mem.F(x) == w.mem.F(x)
  {
    hide Inv, Next;
    match s
    case Handle(fd) => IoLaws.HandleExactly(w, fd, w');
    case Close(f, fd, closes) => IoLaws.CloseExactly(w, f, fd, closes, w');
    case Cancelio(f, fd) => IoLaws.CancelioExactly(w, f, fd, w');
  }

  lemma QuietFields(w: World, s: Step, w': World)
    requires Next(w, s, w')
    requires s.Dispatch? || s.SignalBegin? || s.SignalEnd? || s.Deliver? || s.RawClose? || s.TimerSleep? || s.TimerWake?
    ensures w'.mem.fibers == w.mem.fibers
  {
  }

  lemma EntryStarts(w: World, s: Step, w': World)
    requires Next(w, s, w')
    requires MutexLaws.IsAttempt(s) || s.CondWait? || s.CondTimedwait? || s.Usleep? || s.Waitfor? || s.Spawn?
    ensures w.Ctl(s.f).Running? || w.Ctl(s.f).RetryTimedlock? || w.Ctl(s.f).NotStarted?
  {
  }

  lemma FieldsStay(w: World, s: Step, w': World, x: FiberId)
    requires Inv(w) && Next(w, s, w') && StillThere(w.Ctl(x), w'.Ctl(x))
    ensures w'.mem.F(x) == w.mem.F(x)
  {
    hide Inv, Next;
    if MutexLaws.IsAttempt(s) {
      EntryStarts(w, s, w');
      AttemptFields(w, s, w', x);
    } else if s.CondWait? || s.CondTimedwait? {
      EntryStarts(w, s, w');
      WaitFields(w, s, w', x);
    } else if s.Usleep? || s.Waitfor? || s.Spawn? {
      EntryStarts(w, s, w');
      EntryFields(w, s, w', x);
    } else if s.Unlock? || s.UnlockFast? || s.CondRelease? {
      ReleaseFields(w, s, w');
    } else if s.UnlockHandoff? {
      HandoffFields(w, s.f, w', x);
    } else if s.SignalOne? {
      SignalFields(w, s.f, w', x);
    } else if s.Fire? {
      FireFields(w, s.now, w', x);
    } else if s.Handle? || s.Close? || s.Cancelio? {
      IoFields(w, s, w', x);
    } else {
      QuietFields(w, s, w');
    }
  }

  // ---- How a timer is set -------------------------------------------------------------------

  /** `f` joins the timer queue behind the earlier timers and in front of the others; the timer thread is
      woken exactly if `f` is now the first. */
  ghost predicate JoinsTimers(mem: Mem, f: FiberId, mem': Mem) {
    exists p: nat :: JoinsAt(mem, f, mem', p)
  }

  ghost predicate JoinsAt(mem: Mem, f: FiberId, mem': Mem, p: nat) {
    var q := mem.timerQueue;
    && p <= |q| && mem'.timerQueue == q[..p] + [f] + q[p..]
    && (forall i :: 0 <= i < p ==> mem.F(q[i]).timer < mem'.F(f).timer)
    && (p < |q| ==> mem'.F(f).timer <= mem.F(q[p]).timer)
    && mem'.timerThread == if p == 0 then Awake else mem.timerThread
  }

  lemma PushJoins(mem: Mem, mem1: Mem, f: FiberId)
    requires mem1.timerQueue == mem.timerQueue && mem1.timerThread == mem.timerThread && f !in mem.timerQueue
    requires forall x: FiberId :: x != f ==> mem1.F(x) == mem.F(x)
    ensures JoinsTimers(mem, f, Regions.TimerPush(mem1, f))
    ensures Regions.TimerPush(mem1, f).(timerQueue := mem.timerQueue, timerThread := mem.timerThread) == mem1
  {
    var keys := mem1.TimerKeys();
    var p := InsertPos(keys, mem1.F(f).timer);
    forall i | 0 <= i < |mem.timerQueue| ensures keys[i] == mem.F(mem.timerQueue[i]).timer {
      assert mem.timerQueue[i] in mem.timerQueue;
    }
    assert JoinsAt(mem, f, Regions.TimerPush(mem1, f), p);
  }

  /** A sleeper has its deadline as its timer, and only the sleeper has changed. */
  lemma UsleepExactly(w: World, f: FiberId, t: int, w': World)
    requires Inv(w) && Next(w, Usleep(f, t), w')
    ensures w'.Ctl(f) == Sleeping && w'.mem.F(f).timer == t && w'.mem.F(f).timerCallback == UsleepCallback
    ensures JoinsTimers(w.mem, f, w'.mem)
    ensures w'.mem.(timerQueue := w.mem.timerQueue, timerThread := w.mem.timerThread, fibers := w.mem.fibers) == w.mem
    ensures forall x: FiberId :: x != f ==> w'.Ctl(x) == w.Ctl(x) && w'.mem.F(x) == w.mem.F(x)
  {
    hide Inv, Regions.TimerPush, JoinsTimers;
    var fiber := w.mem.F(f).(waitedEvent := NO_EVENT, timer := t, timerCallback := UsleepCallback);
    SleeperIsSet(w, f, t, w', fiber);
    hide Next;
    Outcomes.QueueMembership(w, f, ReadyQueue);
    PushJoins(w.mem, w.mem.SetF(f, fiber), f);
  }

  lemma SleeperIsSet(w: World, f: FiberId, t: int, w': World, fiber: FiberState)
    requires Next(w, Usleep(f, t), w')
    requires fiber == w.mem.F(f).(waitedEvent := NO_EVENT, timer := t, timerCallback := UsleepCallback)
    ensures w.Ctl(f) == Running && w'.Ctl(f) == Sleeping && forall x: FiberId :: x != f ==> w'.Ctl(x) == w.Ctl(x)
    ensures w'.mem == Regions.TimerPush(w.mem.SetF(f, fiber), f)
  {
    hide Regions.TimerPush;
  }

  /** The deadline of a call with a timeout. */
  function DeadlineSet(w: World, s: Step): Option<int> {
    match s
    case Usleep(_, t) => Some(t)
    case TimedlockSlow(f) => if w.Ctl(f).RetryTimedlock? then Some(w.Ctl(f).timeout) else None
    case CondTimedwait(_, _, _, t) => Some(t)
    case Waitfor(_, _, _, t) => if t > 0 then Some(t) else None
    case _ => None
  }

  lemma TimedwaitDeadline(w: World, f: FiberId, c: CondId, m: MutexId, t: nat, w': World)
    requires Inv(w) && Next(w, CondTimedwait(f, c, m, t), w') && t < TWO_63
    ensures w'.mem.F(f).timer == t && JoinsTimers(w.mem, f, w'.mem)
  {
    hide Inv, Regions.TimerPush, Regions.CondTimedEnqueue, JoinsTimers;
    WaiterIsSet(w, f, c, m, t, w');
    var mem1 := WaiterPushed(w.mem, f, c, m, t, w'.mem);
    hide Next;
    Outcomes.QueueMembership(w, f, ReadyQueue);
    PushJoins(w.mem, mem1, f);
  }

  lemma WaiterIsSet(w: World, f: FiberId, c: CondId, m: MutexId, t: nat, w': World)
    requires Next(w, CondTimedwait(f, c, m, t), w') && t < TWO_63
    ensures w.Ctl(f) == Running && Regions.CondTimedEnqueue(w.mem, f, c, m, t) == Ok(w'.mem)
  {
    hide Regions.CondTimedEnqueue;
  }

  /** The memory before the fiber joins the timer queue: only its own fields have changed, and it has its
      timer. */
  ghost predicate OnlyAlarmed(mem: Mem, f: FiberId, t: int, mem1: Mem) {
    && mem1.F(f).timer == t && mem1.timerQueue == mem.timerQueue && mem1.timerThread == mem.timerThread
    && forall x: FiberId :: x != f ==> mem1.F(x) == mem.F(x)
  }

  lemma WaiterPushed(mem: Mem, f: FiberId, c: CondId, m: MutexId, t: int, mem': Mem) returns (mem1: Mem)
    requires Regions.CondTimedEnqueue(mem, f, c, m, t) == Ok(mem')
    ensures mem' == Regions.TimerPush(mem1, f) && OnlyAlarmed(mem, f, t, mem1)
  {
    hide Regions.TimerPush;
    var waiting := Regions.CondEnqueue(mem, f, c, m).value;
    mem1 := waiting.SetF(f, waiting.F(f).(timer := t, timerCallback := TimedwaitCallback(c), timeout := false));
  }

  lemma TimedlockDeadline(w: World, f: FiberId, w': World)
    requires Inv(w) && Next(w, Step.TimedlockSlow(f), w') && w'.Ctl(f).Locking?
    ensures w.Ctl(f).RetryTimedlock? && w'.mem.F(f).timer == w.Ctl(f).timeout && JoinsTimers(w.mem, f, w'.mem)
  {
    hide Inv, Regions.TimerPush, Regions.TimedlockSlow, JoinsTimers, FiberOk;
    FiberPart(w, f);
    LockerIsSet(w, f, w');
    var mem1 := LockerPushed(w.mem, f, w.Ctl(f).mutex, w.Ctl(f).timeout, w'.mem);
    hide Next;
    Outcomes.QueueMembership(w, f, ReadyQueue);
    PushJoins(w.mem, mem1, f);
  }

  lemma LockerIsSet(w: World, f: FiberId, w': World)
    requires FiberOk(w, f) && Next(w, Step.TimedlockSlow(f), w') && w'.Ctl(f).Locking?
    ensures w.Ctl(f).RetryTimedlock?
    ensures Regions.TimedlockSlow(w.mem, f, w.Ctl(f).mutex, w.Ctl(f).timeout) == (w'.mem, true)
  {
    hide Regions.TimedlockSlow;
  }

  lemma LockerPushed(mem: Mem, f: FiberId, m: MutexId, t: int, mem': Mem) returns (mem1: Mem)
    requires Regions.TimedlockSlow(mem, f, m, t) == (mem', true)
    ensures mem' == Regions.TimerPush(mem1, f) && OnlyAlarmed(mem, f, t, mem1)
  {
    hide Regions.TimerPush;
    var queued := Regions.PushWaiter(mem, m, f);
    mem1 := queued.SetF(f, queued.F(f).(timer := t, timerCallback := TimedlockCallback(m), timeout := false));
  }

  lemma WaitforDeadline(w: World, f: FiberId, fd: Fd, events: Events, t: int, w': World)
    requires Inv(w) && Next(w, Waitfor(f, fd, events, t), w') && t > 0
    ensures w'.mem.F(f).timer == t && JoinsTimers(w.mem, f, w'.mem)
  {
    hide Inv, Regions.TimerPush, Regions.Waitfor, JoinsTimers;
    PollerIsSet(w, f, fd, events, t, w');
    var mem1 := PollerPushed(w.mem, f, fd, events, t, w'.mem);
    hide Next;
    Outcomes.QueueMembership(w, f, ReadyQueue);
    PushJoins(w.mem, mem1, f);
  }

  lemma PollerIsSet(w: World, f: FiberId, fd: Fd, events: Events, t: int, w': World)
    requires Next(w, Waitfor(f, fd, events, t), w')
    ensures w.Ctl(f) == Running && Regions.Waitfor(w.mem, f, fd, events, t) == Ok(w'.mem)
  {
    hide Regions.Waitfor;
  }

  lemma PollerPushed(mem: Mem, f: FiberId, fd: Fd, events: Events, t: int, mem': Mem) returns (mem1: Mem)
    requires Regions.Waitfor(mem, f, fd, events, t) == Ok(mem') && t > 0
    ensures mem' == Regions.TimerPush(mem1, f) && OnlyAlarmed(mem, f, t, mem1)
  {
    hide Regions.TimerPush;
    var d := mem.D(fd);
    var d1 := Regions.Arm(d, d.readQueue != [] || events.read, d.writeQueue != [] || events.write).(isInEpoll := true);
    var dir := if events.read then Read else Write;
    var queued := mem.SetD(fd, d1.WithQueue(dir, d1.Queue(dir) + [f]));
    var fiber := queued.F(f).(waitedEvent := events, ioCanceled := false);
    mem1 := queued.SetF(f, fiber.(timer := t, timerCallback := WaitforCallback(fd), timeout := false));
  }

  /** A call that stops with a deadline has it as its timer, in the timer queue. */
  lemma DeadlineIsStored(w: World, s: Step, w': World)
    requires Inv(w) && Next(w, s, w') && Courteous(w, s)
    requires DeadlineSet(w, s).Some? && w'.Ctl(s.f) != Running
    ensures w'.mem.F(s.f).timer == DeadlineSet(w, s).value && JoinsTimers(w.mem, s.f, w'.mem)
  {
    hide Inv, JoinsTimers;
    match s
    case Usleep(f, t) => UsleepExactly(w, f, t, w');
    case TimedlockSlow(f) => TimedlockDeadline(w, f, w');
    case CondTimedwait(f, c, m, t) => TimedwaitDeadline(w, f, c, m, t, w');
    case Waitfor(f, fd, events, t) => WaitforDeadline(w, f, fd, events, t, w');
  }

  // ---- While the timer runs -----------------------------------------------------------------

  /** A fiber that polls or sleeps stays, or becomes runnable. */
  lemma PollerMoves(w: World, s: Step, w': World, f: FiberId)
    requires Inv(w) && Next(w, s, w') && (w.Ctl(f).Polling? || w.Ctl(f).Sleeping?)
    ensures w'.Ctl(f) == w.Ctl(f) || w'.Ctl(f).Runnable?
    ensures w'.Ctl(f) != w.Ctl(f) && !s.Fire? ==> w.Ctl(f).Polling? && (s.Handle? || s.Close? || s.Cancelio?)
    ensures s.Fire? && w'.Ctl(f) != w.Ctl(f) ==> w.mem.timerQueue != [] && w.mem.timerQueue[0] == f
  {
    hide Inv, Next;
    if s.Fire? {
      Threads.FiredStops(w, s.now, w', f);
      Outcomes.LockWaiterFire(w, s.now, w', f);
    } else if s.Dispatch? || s.UnlockHandoff? || s.SignalOne? {
      Threads.WakersStops(w, s, w', f);
    } else if s.Handle? || s.Close? || s.Cancelio? {
      Outcomes.IoMovesPolling(w, s, w');
    } else {
      NotSpawned(w, s, w', f);
      Threads.QuietStops(w, s, w', f);
    }
  }

  lemma NotSpawned(w: World, s: Step, w': World, f: FiberId)
    requires Next(w, s, w') && !w.Ctl(f).NotStarted?
    ensures s != Spawn(f)
  {
  }

  /** A fiber that was in the timer queue, and still is, has not moved. */
  lemma TimedStays(w: World, s: Step, w': World, f: FiberId)
    requires Inv(w) && Inv(w') && Next(w, s, w') && f in w.mem.timerQueue && f in w'.mem.timerQueue
    ensures StillThere(w.Ctl(f), w'.Ctl(f))
  {
    hide Inv, Next;
    Outcomes.QueueMembership(w, f, ReadyQueue);
    Outcomes.QueueMembership(w', f, ReadyQueue);
    if w.Ctl(f).Locking? {
      Calls.LockingGoesOn(w, s, w', f);
    } else if w.Ctl(f).Waiting? {
      Outcomes.CondWaiterMoves(w, s, w', f);
    } else {
      PollerMoves(w, s, w', f);
    }
  }

  /** The call of a fiber has been ended by its timer. */
  predicate TimedOut(ctl: Control) {
    match ctl
    case Runnable(FromUsleep) => true
    case Runnable(FromTimedlock(_, _, expired)) => expired
    case Runnable(FromCond(_, _, _, expired)) => expired
    case Runnable(FromWaitfor(_, outcome)) => outcome == Expired
    case Locking(_, ByCond(_, _, expired)) => expired
    case _ => false
  }

  lemma IoDoesNotExpire(w: World, s: Step, w': World, f: FiberId)
    requires Inv(w) && Next(w, s, w') && (s.Handle? || s.Close? || s.Cancelio?) && TimedOut(w'.Ctl(f))
    ensures w'.Ctl(f) == w.Ctl(f)
  {
    hide Inv, Next;
    match s
    case Handle(fd) => IoLaws.HandleExactly(w, fd, w');
    case Close(g, fd, closes) => IoLaws.CloseExactly(w, g, fd, closes, w');
    case Cancelio(g, fd) => IoLaws.CancelioExactly(w, g, fd, w');
  }

  /** Only the timer thread times a call out, at the fiber's own timer. */
  lemma OnlyTimersExpire(w: World, s: Step, w': World, f: FiberId)
    requires Inv(w) && Inv(w') && Next(w, s, w') && f in w.mem.timerQueue && TimedOut(w'.Ctl(f))
    ensures s.Fire? && w.mem.timerQueue != [] && w.mem.timerQueue[0] == f
  {
    hide Inv, Next;
    Outcomes.QueueMembership(w, f, ReadyQueue);
    if w.Ctl(f).Locking? {
      Outcomes.LockWaiterMoves(w, s, w', f);
    } else if w.Ctl(f).Waiting? {
      Outcomes.CondWaiterMoves(w, s, w', f);
      if s.Fire? { Outcomes.LockWaiterFire(w, s.now, w', f); }
    } else {
      PollerMoves(w, s, w', f);
      if s.Handle? || s.Close? || s.Cancelio? { IoDoesNotExpire(w, s, w', f); }
    }
  }

  // ---- Over runs ----------------------------------------------------------------------------

  /** In the run, `f` makes a call with deadline `t` at step `i` and is in the timer queue until `j`. */
  ghost predicate TimedFrom(ws: seq<World>, steps: seq<Step>, i: nat, j: nat, f: FiberId, t: int) {
    && Safety.CourteousRun(ws, steps) && |ws| == |steps| + 1 && i < j < |ws|
    && DeadlineSet(ws[i], steps[i]) == Some(t) && IsCallOf(steps[i], f)
    && forall k :: i < k <= j ==> f in ws[k].mem.timerQueue
  }

  predicate IsCallOf(s: Step, f: FiberId) {
    (s.Usleep? || s.TimedlockSlow? || s.CondTimedwait? || s.Waitfor?) && s.f == f
  }

  /** As long as it is in the timer queue, its timer is the deadline of its call. */
  lemma {:induction false} TimerIsDeadline(ws: seq<World>, steps: seq<Step>, i: nat, j: nat, f: FiberId, t: int)
    requires TimedFrom(ws, steps, i, j, f, t)
    ensures ws[j].mem.F(f).timer == t
  {
    hide Inv, Next, Courteous, Init;
    var w, s, w' := ws[j - 1], steps[j - 1], ws[j];
    Returns.StepAt(ws, steps, j - 1);
    if j == i + 1 {
      Outcomes.QueueMembership(w', f, ReadyQueue);
      DeadlineIsStored(w, s, w');
    } else {
      TimerIsDeadline(ws, steps, i, j - 1, f, t);
      TimedStays(w, s, w', f);
      FieldsStay(w, s, w', f);
    }
  }

  /** No call times out before its deadline: if the call made at step `i` is timed out by step `j`, then
      that is the firing of the fiber's own timer, at a time that is not before the deadline. */
  lemma NoTimeoutIsEarly(ws: seq<World>, steps: seq<Step>, i: nat, j: nat, f: FiberId, t: int)
    requires TimedFrom(ws, steps, i, j, f, t) && j < |steps| && TimedOut(ws[j + 1].Ctl(f))
    ensures steps[j].Fire? && t <= steps[j].now && ws[j].mem.timerQueue != [] && ws[j].mem.timerQueue[0] == f
  {
    hide Inv, Next, Courteous, Init;
    Returns.StepAt(ws, steps, j);
    OnlyTimersExpire(ws[j], steps[j], ws[j + 1], f);
    TimerIsDeadline(ws, steps, i, j, f, t);
    MutexLaws.TimerFires(ws[j], steps[j].now, ws[j + 1]);
  }

  /** melon_usleep ends by the firing of its timer, not before its deadline. */
  lemma NoSleepIsShort(ws: seq<World>, steps: seq<Step>, i: nat, j: nat, f: FiberId, t: int)
    requires Safety.CourteousRun(ws, steps) && |ws| == |steps| + 1 && i < j < |steps| && steps[i] == Usleep(f, t)
    requires (forall k :: i < k <= j ==> ws[k].Ctl(f) == Sleeping) && ws[j + 1].Ctl(f) != Sleeping
    ensures steps[j].Fire? && t <= steps[j].now && ws[j + 1].Ctl(f) == Runnable(FromUsleep)
  {
    hide Inv, Next, Courteous, Init, Safety.CourteousRun;
    forall k | i < k <= j ensures f in ws[k].mem.timerQueue {
      Safety.RunInv(ws, steps, k);
      Outcomes.QueueMembership(ws[k], f, ReadyQueue);
    }
    assert TimedFrom(ws, steps, i, j, f, t);
    Returns.StepAt(ws, steps, j);
    PollerMoves(ws[j], steps[j], ws[j + 1], f);
    Outcomes.LockWaiterFire(ws[j], steps[j].now, ws[j + 1], f);
    NoTimeoutIsEarly(ws, steps, i, j, f, t);
  }

  // ---- The timer thread ---------------------------------------------------------------------

  /** After a pass the timer thread sleeps until exactly the first timer, or for good if there is none. */
  lemma TimerSleepExactly(w: World, now: int, w': World)
    requires Next(w, TimerSleep(now), w')
    ensures w'.mem.timerThread.Asleep? && (w'.mem.timerThread.deadline == None <==> w.mem.timerQueue == [])
    ensures w.mem.timerQueue != [] ==>
              && Instant(w'.mem.timerThread.deadline.value) == w.mem.F(w.mem.timerQueue[0]).timer
              && now < w.mem.F(w.mem.timerQueue[0]).timer
    ensures w' == w.(mem := w.mem.(timerThread := w'.mem.timerThread))
  {
    if w.mem.timerQueue != [] { DeadlineIsExact(w.mem.F(w.mem.timerQueue[0]).timer); }
  }
}

/** Inputs on which the code does less than its interface suggests.  Each lemma is one input; the exact
    conditions are in Outcomes, Faults and Passes. */
module Departures {
  import opened Memory
  import opened Machine
  import opened Invariant
  import Regions
  import Safety

  const RECURSIVE_OWNED := MutexState(Some(9), [], 1, true)

  function Waiter(timer: int, depth: int): FiberState {
    FiberState(timer, TimedwaitCallback(0), false, NO_EVENT, false, Some(0), depth)
  }

  /** Two fibers wait, one is signalled: the other is in no queue afterwards (see SignalEndsExactly). */
  lemma SignalOfOneLosesTheOther()
    ensures
      var mem := Mem([], [], Awake, map[1 := Waiter(0, 1), 2 := Waiter(0, 1)], map[0 := RECURSIVE_OWNED],
                     map[0 := [1, 2]], map[]);
      var result := Regions.SignalLoop(mem, 0, 1, 0);
      && result.Ok? && result.value.1 == 1 && result.value.0.M(0).lockQueue == [1]
      && forall q: QueueId :: 2 !in result.value.0.Queue(q)
  {
    var mem := Mem([], [], Awake, map[1 := Waiter(0, 1), 2 := Waiter(0, 1)], map[0 := RECURSIVE_OWNED],
                   map[0 := [1, 2]], map[]);
    var mem1 := Regions.SignalOne(mem, 0).value;
    assert mem1.M(0).lockQueue == [1] && mem1.C(0) == [2];
    assert Regions.SignalLoop(mem, 0, 1, 0) == Ok((mem1.SetC(0, []), 1));
    assert forall q: QueueId :: 2 !in mem1.SetC(0, []).Queue(q);
  }

  /** The timer of a waiter expires before it has released the mutex: an assertion fails (see
      FaultsExactly). */
  lemma TimerInTheWindowFails()
    ensures
      var mem := Mem([], [1], Awake, map[1 := Waiter(5, 1)], map[0 := MutexState(Some(1), [], 1, false)],
                     map[0 := [1]], map[]);
      Regions.Expire(mem, 5) == Failed(AssertFailed)
  {
    var mem := Mem([], [1], Awake, map[1 := Waiter(5, 1)], map[0 := MutexState(Some(1), [], 1, false)], map[0 := [1]],
                   map[]);
    assert mem.F(1).timer == 5;
    assert Regions.FireHead(mem) == Failed(AssertFailed);
  }

  /** A waiter that held the mutex twice gets it back once if the mutex is not free when it is
      signalled (see HandoffDepth), and twice if it is. */
  lemma DepthDependsOnThePath()
    ensures
      var held := Mem([], [], Awake, map[1 := Waiter(0, 2)], map[0 := RECURSIVE_OWNED], map[0 := [1]], map[]);
      var free := Mem([], [], Awake, map[1 := Waiter(0, 2)], map[0 := RECURSIVE_OWNED.(owner := None, lockCount := 0)],
                      map[0 := [1]], map[]);
      var signalled := Regions.SignalOne(held, 0).value;
      var released := Regions.UnlockDecrement(signalled, 0).value.0;
      && Regions.UnlockHandoff(released, 0).value.M(0) == MutexState(Some(1), [], 1, true)
      && Regions.SignalOne(free, 0).value.M(0) == MutexState(Some(1), [], 2, true)
  {
  }

  /** A timeout of 2^63 or more is a negative timer: nobody takes the fiber out of the timer queue when
      it is handed the mutex (see TimeoutWidth). */
  lemma HugeTimeoutStaysQueued()
    ensures
      var mem := Mem([], [], Awake, map[], map[0 := MutexState(Some(9), [], 1, false)], map[], map[]);
      var (queued, _) := Regions.TimedlockSlow(mem, 1, 0, ToInt64(TWO_63));
      var released := Regions.UnlockDecrement(queued, 0).value.0;
      var mem' := Regions.UnlockHandoff(released, 0).value;
      && mem'.M(0).owner == Some(1) && mem'.timerQueue == [1]
  {
    var mem := Mem([], [], Awake, map[], map[0 := MutexState(Some(9), [], 1, false)], map[], map[]);
    var queued := Regions.TimedlockSlow(mem, 1, 0, ToInt64(TWO_63)).0;
    assert queued.F(1).timer == -TWO_63 && queued.M(0).lockQueue == [1];
    var released := Regions.UnlockDecrement(queued, 0).value.0;
    assert released.F(1).timer == -TWO_63 && released.timerQueue == [1];
  }

  // ---- The same in runs ---------------------------------------------------------------------

  const EMPTY := Mem([], [], Awake, map[], map[], map[], map[])

  const BEGINNING := World(EMPTY, map[], map[], None)

  /** The world after one more step of a run. */
  ghost predicate Reached(w: World) {
    exists ws, steps :: Safety.CourteousRun(ws, steps) && ws[|steps|] == w
  }

  lemma BeginningIsReached()
    ensures Reached(BEGINNING)
  {
    var ws: seq<World>, steps: seq<Step> := [BEGINNING], [];
    assert Init(BEGINNING);
    assert Safety.CourteousRun(ws, steps) && ws[|steps|] == BEGINNING;
  }

  lemma StepIsReached(w: World, s: Step, w': World)
    requires Reached(w) && Next(w, s, w') && Courteous(w, s)
    ensures Reached(w')
  {
    hide Init, Next, Courteous;
    var ws, steps :| Safety.CourteousRun(ws, steps) && ws[|steps|] == w;
    var ws', steps' := ws + [w'], steps + [s];
    forall i | 0 <= i < |steps'| ensures Next(ws'[i], steps'[i], ws'[i + 1]) && Courteous(ws'[i], steps'[i]) {
      if i < |steps| { assert ws'[i] == ws[i] && ws'[i + 1] == ws[i + 1]; }
    }
    assert Safety.CourteousRun(ws', steps');
    assert ws'[|steps'|] == w';
  }

  lemma Played(w: World, s: Step) returns (w': World)
    requires Reached(w) && Enabled(w, s) && Courteous(w, s) && Apply(w, s).Ok?
    ensures Reached(w') && Apply(w, s) == Ok(w')
  {
    w' := Apply(w, s).value;
    StepIsReached(w, s, w');
  }

  /** A fiber that runs, owns mutex 0 and nothing else is going on. */
  lemma OneOwner() returns (w: World)
    ensures Reached(w) && w.Ctl(1) == Running && w.Owns(1, 0) && w.mem.M(0).lockCount == 1
    ensures w.big == None && w.mem.timerQueue == [] && w.mem.C(0) == [] && w.mem.timerThread == Awake
    ensures w.mem.ready == []
    ensures w.mem.M(0).lockQueue == [] && w.Ctl(2) == NotStarted && w.Ctl(3) == NotStarted
  {
    hide Reached;
    BeginningIsReached();
    var w1 := Played(BEGINNING, Step.Spawn(1));
    var w2 := Played(w1, Step.Dispatch);
    w := Played(w2, Step.Lock(1, 0));
  }

  lemma TimedWaitMemory(w: World, w': World)
    requires Next(w, Step.CondTimedwait(1, 0, 0, 5), w') && w.mem.timerQueue == [] && w.mem.C(0) == []
    ensures w'.mem.timerQueue == [1] && w'.mem.F(1).timer == 5 && w'.mem.F(1).timerCallback == TimedwaitCallback(0)
    ensures w'.mem.C(0) == [1] && w'.mem.F(1).condMutex == Some(0) && w'.mem.M(0).owner == Some(1)
    ensures w'.big == w.big && w'.mem.timerThread == Awake && w'.mem.ready == w.mem.ready
  {
  }

  lemma WindowFails(mem: Mem)
    requires mem.timerQueue == [1] && mem.F(1).timerCallback == TimedwaitCallback(0)
    requires mem.C(0) == [1] && mem.F(1).condMutex == Some(0) && mem.M(0).owner == Some(1)
    ensures Regions.FireHead(mem) == Failed(AssertFailed)
  {
  }

  /** In a run: the timer of a waiter fires in the window, and the callback fails an assertion. */
  lemma RunIntoTheWindow() returns (w: World)
    ensures Reached(w) && Enabled(w, Fire(5)) && Apply(w, Fire(5)) == Failed(AssertFailed)
  {
    hide Reached, Regions.CondTimedEnqueue, Regions.FireHead;
    var w1 := OneOwner();
    assert Apply(w1, Step.CondTimedwait(1, 0, 0, 5)).Ok? by { OwnerWaits(w1); }
    w := Played(w1, Step.CondTimedwait(1, 0, 0, 5));
    TimedWaitMemory(w1, w);
    WindowFails(w.mem);
  }

  lemma OwnerWaits(w: World)
    requires w.Owns(1, 0)
    ensures DoCondWait(w, 1, 0, 0).Ok? && DoCondTimedwait(w, 1, 0, 0, 5).Ok?
  {
  }

  lemma WaitMemory(w: World, w': World)
    requires Next(w, Step.CondWait(1, 0, 0), w') && w.mem.C(0) == [] && w.Ctl(2) == NotStarted
    ensures w'.mem.C(0) == [1] && w'.mem.F(1).condMutex == Some(0) && w'.mem.M(0).owner == Some(1)
    ensures w'.mem.F(1).timer == 0
    ensures w'.big == w.big && w'.mem.ready == w.mem.ready && w'.Ctl(2) == NotStarted && w'.Ctl(3) == w.Ctl(3)
    ensures w'.Ctl(1) == Waiting(0, 0, false, Pushed, false) && w'.mem.M(0) == w.mem.M(0)
    ensures w'.mem.F(1).lockCount == w.mem.M(0).lockCount
    ensures w'.mem.timerQueue == w.mem.timerQueue && w'.mem.timerThread == w.mem.timerThread
  {
  }

  /** Fiber 1 waits without a timeout, and still owns the mutex. */
  lemma FirstBeginsToWait() returns (w: World)
    ensures Reached(w) && w.mem.C(0) == [1] && w.Ctl(1) == Waiting(0, 0, false, Pushed, false)
    ensures w.mem.F(1).condMutex == Some(0) && w.mem.F(1).timer == 0 && w.mem.F(1).lockCount == 1
    ensures w.mem.M(0).owner == Some(1) && w.mem.M(0).lockQueue == []
    ensures w.big == None && w.mem.ready == [] && w.mem.timerQueue == [] && w.mem.timerThread == Awake
    ensures w.Ctl(2) == NotStarted && w.Ctl(3) == NotStarted
  {
    hide Reached, Regions.CondEnqueue;
    var w1 := OneOwner();
    assert Apply(w1, Step.CondWait(1, 0, 0)).Ok? by { OwnerWaits(w1); }
    w := Played(w1, Step.CondWait(1, 0, 0));
    WaitMemory(w1, w);
  }

  /** Another fiber starts and calls melon_cond_signal. */
  lemma Intrudes(w: World) returns (w': World)
    requires Reached(w) && w.big == None && w.mem.ready == [] && w.Ctl(2) == NotStarted && w.mem.C(0) == [1]
    ensures Reached(w') && w'.big == Some(2) && w'.Ctl(2) == SignalLoop(0, 1, 0, 1)
    ensures w'.mem.C(0) == [1] && w'.mem.F(1) == w.mem.F(1) && w'.mem.M(0) == w.mem.M(0)
  {
    hide Reached;
    var w1 := Played(w, Step.Spawn(2));
    var w2 := Played(w1, Step.Dispatch);
    w' := Played(w2, Step.SignalBegin(2, 0, 1));
  }

  lemma IntruderFails(mem: Mem)
    requires mem.C(0) == [1] && mem.F(1).condMutex == Some(0) && mem.M(0).owner == Some(1) && mem.F(1).timer == 0
    ensures Regions.SignalOne(mem, 0) == Failed(AssertFailed)
  {
  }

  /** In a run: a fiber that does not own the mutex signals in the window, and fails the same assertion. */
  lemma RunOfAnIntruder() returns (w: World)
    ensures Reached(w) && Enabled(w, Step.SignalOne(2)) && !w.Owns(2, 0)
    ensures Apply(w, Step.SignalOne(2)) == Failed(AssertFailed)
  {
    hide Reached, Regions.SignalOne;
    var w1 := FirstBeginsToWait();
    w := Intrudes(w1);
    IntruderFails(w.mem);
  }

  // ---- A dropped waiter, in a run -----------------------------------------------------------

  /** Nothing is owned, locked or ready, and nobody signals. */
  ghost predicate Quiet(w: World) {
    && w.big == None && w.mem.ready == [] && w.mem.timerThread == Awake
    && w.mem.M(0).owner == None && w.mem.M(0).lockQueue == []
  }

  /** A waiter that has just been pushed gives up the mutex. */
  lemma GivesUp(w: World, f: FiberId) returns (w': World)
    requires Reached(w) && w.Ctl(f).Waiting? && w.Ctl(f).mutex == 0 && w.Ctl(f).release == Pushed
    requires w.mem.M(0).lockQueue == []
    ensures Reached(w') && w'.mem == w.mem.SetM(0, w.mem.M(0).(owner := None, lockCount := 0)) && w'.big == w.big
    ensures w'.Ctl(f).Waiting? && forall x: FiberId :: x != f ==> w'.Ctl(x) == w.Ctl(x)
  {
    hide Reached;
    var w1 := Played(w, Step.CondRelease(f));
    w' := Played(w1, Step.UnlockFast(f));
    assert w.mem.mutexes[0 := w1.mem.M(0)][0 := w'.mem.M(0)] == w.mem.mutexes[0 := w'.mem.M(0)];
  }

  /** Fiber 1 waits without a timeout. */
  lemma FirstWaits() returns (w: World)
    ensures Reached(w) && Quiet(w) && w.mem.C(0) == [1] && w.mem.timerQueue == [] && w.mem.F(1).timer == 0
    ensures w.mem.F(1).condMutex == Some(0) && w.mem.F(1).lockCount == 1
    ensures w.Ctl(2) == NotStarted && w.Ctl(3) == NotStarted
  {
    hide Reached, Next, Apply, Enabled;
    var w1 := FirstBeginsToWait();
    w := GivesUp(w1, 1);
  }

  lemma SecondOwns(w: World) returns (w': World)
    requires Reached(w) && Quiet(w) && w.Ctl(2) == NotStarted && w.Ctl(3) == NotStarted
    ensures Reached(w') && w'.Ctl(2) == Running && w'.Owns(2, 0) && w'.mem.M(0).lockQueue == [] && w'.big == None
    ensures w'.mem.ready == [] && w'.mem.timerThread == Awake && w'.mem.C(0) == w.mem.C(0)
    ensures w'.mem.timerQueue == w.mem.timerQueue
    ensures w'.mem.F(1) == w.mem.F(1) && w'.Ctl(3) == NotStarted
  {
    hide Reached;
    var w1 := Played(w, Step.Spawn(2));
    var w2 := Played(w1, Step.Dispatch);
    w' := Played(w2, Step.Lock(2, 0));
  }

  lemma SecondWaitMemory(w: World, w': World)
    requires Next(w, Step.CondTimedwait(2, 0, 0, 5), w') && w.mem.timerQueue == [] && w.mem.C(0) == [1]
    ensures w'.mem.timerQueue == [2] && w'.mem.F(2).timer == 5 && w'.mem.F(2).timerCallback == TimedwaitCallback(0)
    ensures w'.mem.C(0) == [1, 2] && w'.mem.F(1) == w.mem.F(1) && w'.mem.M(0) == w.mem.M(0)
    ensures w'.big == w.big && w'.mem.timerThread == Awake && w'.mem.ready == w.mem.ready
    ensures w'.Ctl(2) == Waiting(0, 0, true, Pushed, false) && w'.Ctl(3) == w.Ctl(3)
  {
  }

  /** Fiber 2 waits behind it, with a timeout. */
  lemma SecondWaits() returns (w: World)
    ensures Reached(w) && Quiet(w) && w.mem.C(0) == [1, 2] && w.mem.timerQueue == [2] && w.mem.F(1).timer == 0
    ensures w.mem.F(1).condMutex == Some(0) && w.mem.F(1).lockCount == 1
    ensures w.mem.F(2).timer == 5 && w.mem.F(2).timerCallback == TimedwaitCallback(0)
    ensures w.Ctl(2).Waiting? && w.Ctl(3) == NotStarted
  {
    hide Reached, Regions.CondTimedEnqueue;
    var w1 := FirstWaits();
    var w2 := SecondOwns(w1);
    assert Apply(w2, Step.CondTimedwait(2, 0, 0, 5)).Ok? by { SecondCanWait(w2); }
    var w3 := Played(w2, Step.CondTimedwait(2, 0, 0, 5));
    SecondWaitMemory(w2, w3);
    hide Apply, Enabled;
    w := GivesUp(w3, 2);
  }

  lemma SecondCanWait(w: World)
    requires w.Owns(2, 0)
    ensures DoCondTimedwait(w, 2, 0, 0, 5).Ok?
  {
  }

  lemma ThirdBegins(w: World) returns (w': World)
    requires Reached(w) && Quiet(w) && w.Ctl(2).Waiting? && w.Ctl(3) == NotStarted && w.mem.C(0) == [1, 2]
    ensures Reached(w') && w'.big == Some(3) && w'.Ctl(3) == SignalLoop(0, 1, 0, 2) && w'.mem.M(0).owner == None
    ensures w'.mem.C(0) == [1, 2] && w'.mem.F(1) == w.mem.F(1) && w'.mem.F(2) == w.mem.F(2)
    ensures w'.mem.timerQueue == w.mem.timerQueue && w'.mem.timerThread == Awake && w'.Ctl(2) == w.Ctl(2)
  {
    hide Reached;
    var w1 := Played(w, Step.Spawn(3));
    var w2 := Played(w1, Step.Dispatch);
    w' := Played(w2, Step.SignalBegin(3, 0, 1));
  }

  lemma FirstIsWoken(mem: Mem)
    requires mem.C(0) == [1, 2] && mem.F(1).timer == 0 && mem.F(1).condMutex == Some(0) && mem.F(1).lockCount == 1
    requires mem.M(0).owner == None
    ensures Regions.SignalOne(mem, 0).Ok?
    ensures
      var mem' := Regions.SignalOne(mem, 0).value;
      mem'.C(0) == [2] && mem'.F(2) == mem.F(2) && mem'.timerQueue == mem.timerQueue
          && mem'.timerThread == mem.timerThread
  {
  }

  lemma DroppedFails(mem: Mem)
    requires mem.timerQueue == [2] && mem.F(2).timerCallback == TimedwaitCallback(0) && mem.C(0) == []
    ensures Regions.FireHead(mem) == Failed(BadUnlink)
  {
  }

  lemma ThirdSignalsOne(w: World) returns (w': World)
    requires Reached(w) && w.big == Some(3) && w.Ctl(3) == SignalLoop(0, 1, 0, 2) && w.Ctl(2).Waiting?
    requires w.mem.C(0) == [1, 2] && Regions.SignalOne(w.mem, 0).Ok?
    ensures Reached(w') && Regions.SignalOne(w.mem, 0) == Ok(w'.mem)
    ensures w'.big == Some(3) && w'.Ctl(3) == SignalLoop(0, 1, 1, 2) && w'.Ctl(2).Waiting?
  {
    hide Reached, Regions.SignalOne;
    w' := Played(w, Step.SignalOne(3));
  }

  lemma ThirdEnds(w: World) returns (w': World)
    requires Reached(w) && w.big == Some(3) && w.Ctl(3) == SignalLoop(0, 1, 1, 2) && w.Ctl(2).Waiting?
    requires w.mem.C(0) == [2]
    ensures Reached(w') && w'.mem == w.mem.SetC(0, []) && w'.big == None && w'.Ctl(2).Waiting? && w'.Ctl(2).dropped
  {
    hide Reached;
    w' := Played(w, Step.SignalEnd(3));
  }

  /** In a run: fiber 3 signals one of the two waiters.  The other is in no queue, and when its timer
      fires the callback unlinks it from a ring in which it is not. */
  lemma RunOfADroppedWaiter() returns (w: World)
    ensures Reached(w) && Enabled(w, Fire(5)) && w.mem.C(0) == [] && w.Ctl(2).Waiting? && w.Ctl(2).dropped
    ensures Apply(w, Fire(5)) == Failed(BadUnlink)
  {
    hide Reached, Regions.SignalOne, Regions.FireHead;
    var w1 := SecondWaits();
    var w2 := ThirdBegins(w1);
    FirstIsWoken(w2.mem);
    var w3 := ThirdSignalsOne(w2);
    w := ThirdEnds(w3);
    DroppedFails(w.mem);
  }
}

/** The steps of src/cond.c keep the invariant. */
module PreserveCond {
  import opened Memory
  import opened Machine
  import opened Invariant

  // ---- melon_cond_wait, melon_cond_timedwait ------------------------------------------------

  lemma EnqueuePlaces(w: World, f: FiberId, c: CondId, m: MutexId, t: nat, w': World)
    requires w.Ctl(f) == Running && (DoCondWait(w, f, c, m) == Ok(w') || DoCondTimedwait(w, f, c, m, t) == Ok(w'))
    requires Places(w)
    ensures Places(w')
  {
    PlacesMove(w, w', f);
  }

  lemma EnqueueTimers(w: World, f: FiberId, c: CondId, m: MutexId, t: nat, w': World)
    requires w.Ctl(f) == Running && (DoCondWait(w, f, c, m) == Ok(w') || DoCondTimedwait(w, f, c, m, t) == Ok(w'))
    requires Timers(w)
    ensures Timers(w')
  {
    if DoCondWait(w, f, c, m) == Ok(w') {
      TimersKept(w, w');
    } else {
      TimersInsert(w, w', f);
    }
  }

  lemma EnqueueSelf(w: World, f: FiberId, c: CondId, m: MutexId, t: nat, w': World)
    requires w.Ctl(f) == Running && 0 < ToInt64(t)
    requires DoCondWait(w, f, c, m) == Ok(w') || DoCondTimedwait(w, f, c, m, t) == Ok(w')
    requires MutexOk(w, m)
    ensures FiberOk(w', f)
  {
  }

  lemma EnqueueOthers(w: World, f: FiberId, c: CondId, m: MutexId, t: nat, w': World, x: FiberId)
    requires w.Ctl(f) == Running && x != f && !w.SpinHeld(c) && FiberOk(w, x)
    requires DoCondWait(w, f, c, m) == Ok(w') || DoCondTimedwait(w, f, c, m, t) == Ok(w')
    ensures Untouched(w, w', x)
  {
  }

  lemma EnqueueFrame(w: World, f: FiberId, c: CondId, m: MutexId, t: nat, w': World)
    requires w.Ctl(f) == Running
    requires DoCondWait(w, f, c, m) == Ok(w') || DoCondTimedwait(w, f, c, m, t) == Ok(w')
    ensures w'.mem.mutexes == w.mem.mutexes && w'.mem.fds == w.mem.fds && w'.big == w.big
  {
  }

  lemma EnqueueKeeps(w: World, f: FiberId, c: CondId, m: MutexId, t: nat, w': World)
    requires Inv(w) && w.Ctl(f) == Running && !w.SpinHeld(c) && 0 < ToInt64(t)
    requires DoCondWait(w, f, c, m) == Ok(w') || DoCondTimedwait(w, f, c, m, t) == Ok(w')
    ensures Inv(w')
  {
    hide Inv, Places, Timers, FiberOk, MutexOk, NoLostWakeup, Untouched;
    QueueParts(w);
    EnqueuePlaces(w, f, c, m, t, w');
    EnqueueTimers(w, f, c, m, t, w');
    MutexPart(w, m);
    EnqueueSelf(w, f, c, m, t, w');
    EnqueueFrame(w, f, c, m, t, w');
    forall x: FiberId | x != f ensures Untouched(w, w', x) {
      FiberPart(w, x);
      EnqueueOthers(w, f, c, m, t, w', x);
    }
    MutexesSame(w, w', f);
    FdsKept(w, w');
    Assemble(w, w', f, f);
  }

  lemma ReleaseEffect(w: World, f: FiberId, m: MutexId, w': World)
    requires w.Ctl(f).Waiting? && w.Ctl(f).release == Pushed && m == w.Ctl(f).mutex && w' == DoCondRelease(w, f)
    requires FiberOk(w, f) && MutexOk(w, m)
    ensures FiberOk(w', f) && MutexOk(w', m)
    ensures forall x: FiberId :: x != f ==> Untouched(w, w', x)
    ensures forall n: MutexId :: n != m ==> w'.mem.M(n) == w.mem.M(n)
    ensures w'.mem.fds == w.mem.fds && w'.big == w.big
  {
  }

  lemma ReleaseQueues(w: World, f: FiberId, w': World)
    requires w.Ctl(f).Waiting? && w' == DoCondRelease(w, f)
    requires Places(w) && Timers(w)
    ensures Places(w') && Timers(w')
  {
    PlacesMove(w, w', f);
    TimersKept(w, w');
  }

  lemma ReleaseKeeps(w: World, f: FiberId, w': World)
    requires Inv(w) && w.Ctl(f).Waiting? && w.Ctl(f).release == Pushed && w' == DoCondRelease(w, f)
    ensures Inv(w')
  {
    hide Inv, Places, Timers, FiberOk, MutexOk, NoLostWakeup, Untouched;
    QueueParts(w);
    var m := w.Ctl(f).mutex;
    ReleaseQueues(w, f, w');
    FiberPart(w, f);
    MutexPart(w, m);
    ReleaseEffect(w, f, m, w');
    MutexesKept(w, w', m, f, f);
    FdsKept(w, w');
    Assemble(w, w', f, f);
  }

  // ---- melon_cond_signalnb ------------------------------------------------------------------

  lemma SignalBeginQueues(w: World, f: FiberId, c: CondId, nb: nat, w': World)
    requires w.Ctl(f) == Running && w' == DoSignalBegin(w, f, c, nb)
    requires Places(w) && Timers(w)
    ensures Places(w') && Timers(w')
  {
    PlacesMove(w, w', f);
    TimersKept(w, w');
  }

  lemma SignalBeginSelf(w: World, f: FiberId, c: CondId, nb: nat, w': World)
    requires w' == DoSignalBegin(w, f, c, nb)
    ensures FiberOk(w', f) && w'.Ctl(f).SignalLoop?
  {
  }

  lemma SignalBeginOthers(w: World, f: FiberId, c: CondId, nb: nat, w': World, x: FiberId)
    requires w.big == None && x != f && w' == DoSignalBegin(w, f, c, nb)
    requires FiberOk(w, x)
    ensures Untouched(w, w', x)
  {
  }

  lemma SignalBeginKeeps(w: World, f: FiberId, c: CondId, nb: nat, w': World)
    requires Inv(w) && w.big == None && w.Ctl(f) == Running && w' == DoSignalBegin(w, f, c, nb)
    ensures Inv(w')
  {
    hide Inv, Places, Timers, FiberOk, MutexOk, NoLostWakeup, Untouched;
    QueueParts(w);
    SignalBeginQueues(w, f, c, nb, w');
    forall x: FiberId | x != f ensures Untouched(w, w', x) {
      FiberPart(w, x);
      SignalBeginOthers(w, f, c, nb, w', x);
    }
    SignalBeginSelf(w, f, c, nb, w');
    MutexesSame(w, w', f);
    FdsKept(w, w');
    Assemble(w, w', f, f);
  }

  /** What the loop finds at the head: a waiter on this condition, with everything it saved. */
  lemma SignalHead(w: World, f: FiberId, c: CondId, x: FiberId)
    requires Places(w) && w.Ctl(f).SignalLoop? && c == w.Ctl(f).cond && w.mem.C(c) != [] && x == w.mem.C(c)[0]
    ensures x != f && w.Ctl(x).Waiting? && w.Ctl(x).cond == c && !w.Ctl(x).dropped
  {
    assert x in w.mem.Queue(WaitQueue(c));
  }

  /** The loop of the signaller `f` takes the waiter `x` off the condition `c`. */
  ghost predicate Signals(w: World, f: FiberId, c: CondId, x: FiberId, w': World) {
    && w.big == Some(f) && w.Ctl(f).SignalLoop? && c == w.Ctl(f).cond
    && SignalGoesOn(w.mem, w.Ctl(f)) && x == w.mem.C(c)[0]
    && DoSignalOne(w, f) == Ok(w')
  }

  /** The waiter at the head of the condition's queue. */
  ghost predicate WaitsAt(w: World, f: FiberId, c: CondId, x: FiberId) {
    x != f && w.Ctl(x).Waiting? && w.Ctl(x).cond == c && !w.Ctl(x).dropped && FiberOk(w, x)
  }

  /** What lock2 does for a woken waiter `x`: it gets a free mutex, or queues for an owned one. */
  ghost predicate RelocksOn(w: World, x: FiberId, w': World)
    requires w.Ctl(x).Waiting?
  {
    var m := w.Ctl(x).mutex;
    var mutex := w.mem.M(m);
    && (forall n: MutexId :: n != m ==> w'.mem.M(n) == w.mem.M(n))
    && mutex.owner != Some(x)
    && (mutex.owner == None ==>
          && w'.mem.ready == w.mem.ready + [x]
          && w'.mem.M(m) == mutex.(owner := Some(x), lockCount := w.mem.F(x).lockCount))
    && (mutex.owner != None ==>
          && w'.mem.ready == w.mem.ready
          && w'.mem.M(m) == mutex.(lockQueue := mutex.lockQueue + [x]))
  }

  lemma SignalOneControl(w: World, f: FiberId, c: CondId, x: FiberId, w': World)
    requires Signals(w, f, c, x, w') && WaitsAt(w, f, c, x)
    ensures w'.Ctl(x) == Relocked(w.mem, w.Ctl(x), false)
    ensures w'.Ctl(f) == w.Ctl(f).(woken := w.Ctl(f).woken + 1)
    ensures forall y: FiberId :: y != x && y != f ==> w'.Ctl(y) == w.Ctl(y)
  {
  }

  lemma SignalOneMemory(w: World, f: FiberId, c: CondId, x: FiberId, w': World)
    requires Signals(w, f, c, x, w') && WaitsAt(w, f, c, x)
    ensures RelocksOn(w, x, w')
    ensures w'.mem.C(c) == w.mem.C(c)[1..]
    ensures forall d: CondId :: d != c ==> w'.mem.C(d) == w.mem.C(d)
    ensures w'.mem.fds == w.mem.fds && w'.big == w.big
  {
    SignalOneRelocks(w, f, c, x, w');
    hide RelocksOn;
  }

  lemma SignalOneRelocks(w: World, f: FiberId, c: CondId, x: FiberId, w': World)
    requires Signals(w, f, c, x, w') && WaitsAt(w, f, c, x)
    ensures RelocksOn(w, x, w')
  {
  }

  lemma SignalOneQueue(w: World, f: FiberId, c: CondId, x: FiberId, w': World, q: QueueId)
    requires Signals(w, f, c, x, w') && WaitsAt(w, f, c, x)
    ensures w'.mem.Queue(q) == Moved(w.mem.Queue(q), q, x, Some(WaitQueue(c)), PlaceOf(w'.Ctl(x)))
  {
    SignalOneControl(w, f, c, x, w');
    SignalOneMemory(w, f, c, x, w');
    assert w.Ctl(x).Waiting?;
    WithoutHead(w.mem.C(c)) by { assert w.mem.C(c) != []; }
    assert x == w.mem.C(c)[0];
    hide Signals, WaitsAt;
    match q
    case ReadyQueue =>
    case LockQueue(m) =>
    case WaitQueue(d) =>
    case FdQueue(fd, dir) =>
  }

  lemma SignalOnePlaces(w: World, f: FiberId, c: CondId, x: FiberId, w': World)
    requires Places(w) && Signals(w, f, c, x, w') && WaitsAt(w, f, c, x)
    ensures Places(w')
  {
    assert PlaceOf(w.Ctl(x)) == Some(WaitQueue(c));
    SignalOneControl(w, f, c, x, w');
    hide Places, Signals, WaitsAt;
    forall q: QueueId
      ensures w'.mem.Queue(q) == Moved(w.mem.Queue(q), q, x, Some(WaitQueue(c)), PlaceOf(w'.Ctl(x)))
    {
      SignalOneQueue(w, f, c, x, w', q);
    }
    PlacesMove(w, w', x);
  }

  lemma SignalOneTimers(w: World, f: FiberId, c: CondId, x: FiberId, w': World)
    requires Timers(w) && Signals(w, f, c, x, w') && WaitsAt(w, f, c, x)
    ensures Timers(w')
  {
    if InTimers(w.Ctl(x)) {
      TimersRemove(w, w', x);
    } else {
      TimersKept(w, w');
    }
  }

  lemma SignalOneWoken(w: World, f: FiberId, c: CondId, x: FiberId, w': World)
    requires Signals(w, f, c, x, w') && WaitsAt(w, f, c, x)
    requires MutexOk(w, w.Ctl(x).mutex)
    ensures FiberOk(w', x)
  {
  }

  lemma SignalOneMutex(w: World, f: FiberId, c: CondId, x: FiberId, w': World)
    requires Signals(w, f, c, x, w') && WaitsAt(w, f, c, x)
    requires MutexOk(w, w.Ctl(x).mutex)
    ensures MutexOk(w', w.Ctl(x).mutex)
  {
    SignalOneMemory(w, f, c, x, w');
    SignalOneControl(w, f, c, x, w');
    SignalOneParked(w, f, c, x, w');
    hide Signals;
  }

  lemma SignalOneSelf(w: World, f: FiberId, c: CondId, x: FiberId, w': World)
    requires Signals(w, f, c, x, w') && WaitsAt(w, f, c, x)
    requires FiberOk(w, f)
    ensures FiberOk(w', f) && w'.Ctl(f).SignalLoop?
  {
    SignalOneMemory(w, f, c, x, w');
    SignalOneControl(w, f, c, x, w');
    assert w.Ctl(f).SignalLoop? && c == w.Ctl(f).cond && SignalGoesOn(w.mem, w.Ctl(f));
    hide Signals;
  }

  lemma SignalOneOthers(w: World, f: FiberId, c: CondId, x: FiberId, w': World, y: FiberId)
    requires Signals(w, f, c, x, w') && WaitsAt(w, f, c, x)
    requires y != f && y != x && FiberOk(w, y)
    ensures Untouched(w, w', y)
  {
    SignalOneMemory(w, f, c, x, w');
    SignalOneControl(w, f, c, x, w');
    assert w'.mem.F(y) == w.mem.F(y) && w.big == Some(f);
    hide Signals;
  }

  /** A waiter that still owns its mutex would have made lock2 fail. */
  lemma SignalOneParked(w: World, f: FiberId, c: CondId, x: FiberId, w': World)
    requires Signals(w, f, c, x, w') && WaitsAt(w, f, c, x)
    ensures w.Ctl(x).release == Parked && ReleasingMutex(w.Ctl(x)) == None
  {
  }

  lemma SignalOneKeeps(w: World, f: FiberId, w': World)
    requires Inv(w) && w.big == Some(f) && w.Ctl(f).SignalLoop? && SignalGoesOn(w.mem, w.Ctl(f))
    requires DoSignalOne(w, f) == Ok(w')
    ensures Inv(w')
  {
    var c := w.Ctl(f).cond;
    var x := w.mem.C(c)[0];
    var m := w.Ctl(x).mutex by {
      QueueParts(w);
      SignalHead(w, f, c, x);
    }
    assert Signals(w, f, c, x, w');
    hide Inv, Places, Timers, FiberOk, MutexOk, NoLostWakeup, Untouched, Signals;
    QueueParts(w);
    SignalHead(w, f, c, x);
    FiberPart(w, x);
    FiberPart(w, f);
    MutexPart(w, m);
    SignalOnePlaces(w, f, c, x, w');
    SignalOneTimers(w, f, c, x, w');
    SignalOneWoken(w, f, c, x, w');
    SignalOneMutex(w, f, c, x, w');
    SignalOneSelf(w, f, c, x, w');
    SignalOneParked(w, f, c, x, w');
    SignalOneMemory(w, f, c, x, w');
    forall y: FiberId | y != f && y != x ensures Untouched(w, w', y) {
      FiberPart(w, y);
      SignalOneOthers(w, f, c, x, w', y);
    }
    MutexesKept(w, w', m, f, x);
    FdsKept(w, w');
    Assemble(w, w', f, x);
  }

  lemma SignalEndPlaces(w: World, f: FiberId, w': World)
    requires w.Ctl(f).SignalLoop? && w' == DoSignalEnd(w, f)
    requires Places(w)
    ensures Places(w')
  {
    var c := w.Ctl(f).cond;
    forall q: QueueId
      ensures Distinct(w'.mem.Queue(q))
      ensures forall x: FiberId :: x in w'.mem.Queue(q) <==> PlaceOf(w'.Ctl(x)) == Some(q)
    {
      assert Distinct(w.mem.Queue(q));
      forall x: FiberId
        ensures x in w'.mem.Queue(q) <==> PlaceOf(w'.Ctl(x)) == Some(q)
      {
        assert x in w.mem.Queue(q) <==> PlaceOf(w.Ctl(x)) == Some(q);
        assert x in w.mem.Queue(WaitQueue(c)) <==> PlaceOf(w.Ctl(x)) == Some(WaitQueue(c));
      }
    }
  }

  lemma SignalEndFiber(w: World, f: FiberId, w': World, x: FiberId)
    requires w.Ctl(f).SignalLoop? && w' == DoSignalEnd(w, f) && x != f
    requires w.big == Some(f) && FiberOk(w, x)
    ensures Untouched(w, w', x) && InTimers(w'.Ctl(x)) == InTimers(w.Ctl(x))
  {
  }

  lemma SignalEndSelf(w: World, f: FiberId, w': World)
    requires w.Ctl(f).SignalLoop? && w' == DoSignalEnd(w, f)
    ensures FiberOk(w', f) && w'.big == None
  {
  }

  lemma SignalEndKeeps(w: World, f: FiberId, w': World)
    requires Inv(w) && w.big == Some(f) && w.Ctl(f).SignalLoop? && w' == DoSignalEnd(w, f)
    ensures Inv(w')
  {
    hide Inv, Places, Timers, FiberOk, MutexOk, NoLostWakeup, Untouched;
    QueueParts(w);
    SignalEndPlaces(w, f, w');
    forall x: FiberId | x != f ensures Untouched(w, w', x) && InTimers(w'.Ctl(x)) == InTimers(w.Ctl(x)) {
      FiberPart(w, x);
      SignalEndFiber(w, f, w', x);
    }
    TimersKept(w, w');
    SignalEndSelf(w, f, w');
    MutexesSame(w, w', f);
    FdsKept(w, w');
    Assemble(w, w', f, f);
  }
}

/** The steps of src/mutex.c and of fiber dispatch keep the invariant.  For each step, small lemmas
    say what it does to the queues, to the fibers it moves, to the mutex, and to all the rest. */
module PreserveMutex {
  import opened Memory
  import opened Machine
  import opened Invariant

  /** The rest of the memory that no step of this module changes. */
  predicate SameElsewhere(w: World, w': World) {
    w'.mem.fds == w.mem.fds && w'.mem.conds == w.mem.conds && w'.big == w.big
  }

  // ---- Spawn and dispatch -------------------------------------------------------------------

  lemma SpawnQueues(w: World, f: FiberId, w': World)
    requires w.Ctl(f) == NotStarted && w' == DoSpawn(w, f)
    requires Places(w) && Timers(w)
    ensures Places(w') && Timers(w')
  {
    PlacesMove(w, w', f);
    TimersKept(w, w');
  }

  lemma SpawnEffect(w: World, f: FiberId, w': World)
    requires w.Ctl(f) == NotStarted && w' == DoSpawn(w, f)
    ensures FiberOk(w', f)
    ensures forall x: FiberId :: x != f ==> Untouched(w, w', x)
    ensures w'.mem.mutexes == w.mem.mutexes && SameElsewhere(w, w')
  {
  }

  lemma SpawnKeeps(w: World, f: FiberId, w': World)
    requires Inv(w) && w.Ctl(f) == NotStarted && w' == DoSpawn(w, f)
    ensures Inv(w')
  {
    hide Inv, Places, Timers, FiberOk, MutexOk, NoLostWakeup, Untouched;
    QueueParts(w);
    SpawnQueues(w, f, w');
    SpawnEffect(w, f, w');
    MutexesSame(w, w', f);
    FdsKept(w, w');
    Assemble(w, w', f, f);
  }

  lemma DispatchQueues(w: World, w': World)
    requires w.mem.ready != [] && w' == DoDispatch(w)
    requires Places(w) && Timers(w)
    ensures w.Ctl(w.mem.ready[0]).Runnable?
    ensures Places(w') && Timers(w')
  {
    var f := w.mem.ready[0];
    assert f in w.mem.Queue(ReadyQueue);
    WithoutHead(w.mem.ready);
    PlacesMove(w, w', f);
    TimersKept(w, w');
  }

  lemma DispatchEffect(w: World, f: FiberId, w': World)
    requires w.mem.ready != [] && f == w.mem.ready[0] && w' == DoDispatch(w)
    ensures FiberOk(w', f) && w'.Ctl(f) == Running
    ensures forall x: FiberId :: x != f ==> Untouched(w, w', x)
    ensures w'.mem.mutexes == w.mem.mutexes && SameElsewhere(w, w')
  {
  }

  lemma DispatchKeeps(w: World, w': World)
    requires Inv(w) && w.mem.ready != [] && w' == DoDispatch(w)
    ensures Inv(w')
  {
    hide Inv, Places, Timers, FiberOk, MutexOk, NoLostWakeup, Untouched;
    var f := w.mem.ready[0];
    QueueParts(w);
    DispatchQueues(w, w');
    DispatchEffect(w, f, w');
    MutexesSame(w, w', f);
    FdsKept(w, w');
    Assemble(w, w', f, f);
  }

  // ---- melon_mutex_lock ---------------------------------------------------------------------

  lemma LockQueues(w: World, f: FiberId, m: MutexId, w': World)
    requires w.Ctl(f) == Running && DoLock(w, f, m) == Ok(w')
    requires Places(w) && Timers(w)
    ensures Places(w') && Timers(w')
  {
    PlacesMove(w, w', f);
    TimersKept(w, w');
  }

  lemma LockEffect(w: World, f: FiberId, m: MutexId, w': World)
    requires w.Ctl(f) == Running && DoLock(w, f, m) == Ok(w')
    requires MutexOk(w, m)
    ensures FiberOk(w', f) && MutexOk(w', m)
  {
  }

  lemma LockOthers(w: World, f: FiberId, m: MutexId, w': World)
    requires w.Ctl(f) == Running && DoLock(w, f, m) == Ok(w')
    ensures forall x: FiberId :: x != f ==> Untouched(w, w', x)
    ensures forall n: MutexId :: n != m ==> w'.mem.M(n) == w.mem.M(n)
    ensures SameElsewhere(w, w')
  {
  }

  lemma LockKeeps(w: World, f: FiberId, m: MutexId, w': World)
    requires Inv(w) && w.Ctl(f) == Running && DoLock(w, f, m) == Ok(w')
    ensures Inv(w')
  {
    hide Inv, Places, Timers, FiberOk, MutexOk, NoLostWakeup, Untouched;
    QueueParts(w);
    LockQueues(w, f, m, w');
    MutexPart(w, m);
    LockEffect(w, f, m, w');
    LockOthers(w, f, m, w');
    MutexesKept(w, w', m, f, f);
    FdsKept(w, w');
    Assemble(w, w', f, f);
  }

  // ---- melon_mutex_trylock, melon_mutex_timedlock -------------------------------------------

  /** melon_mutex_timedlock starts with a trylock. */
  ghost predicate TriesLock(w: World, f: FiberId, m: MutexId, t: nat, w': World) {
    w.Ctl(f) == Running && 0 < t < TWO_63 && (w' == DoTrylock(w, f, m) || w' == DoTimedlock(w, f, m, t))
  }

  lemma TrylockQueues(w: World, f: FiberId, m: MutexId, t: nat, w': World)
    requires TriesLock(w, f, m, t, w')
    requires Places(w) && Timers(w)
    ensures Places(w') && Timers(w')
  {
    PlacesMove(w, w', f);
    TimersKept(w, w');
  }

  lemma TrylockEffect(w: World, f: FiberId, m: MutexId, t: nat, w': World)
    requires TriesLock(w, f, m, t, w')
    requires MutexOk(w, m)
    ensures FiberOk(w', f) && MutexOk(w', m)
  {
  }

  lemma TrylockOthers(w: World, f: FiberId, m: MutexId, t: nat, w': World)
    requires TriesLock(w, f, m, t, w')
    ensures forall x: FiberId :: x != f ==> Untouched(w, w', x)
    ensures forall n: MutexId :: n != m ==> w'.mem.M(n) == w.mem.M(n)
    ensures SameElsewhere(w, w')
  {
  }

  lemma TrylockKeeps(w: World, f: FiberId, m: MutexId, t: nat, w': World)
    requires Inv(w) && TriesLock(w, f, m, t, w')
    ensures Inv(w')
  {
    hide Inv, Places, Timers, FiberOk, MutexOk, NoLostWakeup, Untouched;
    QueueParts(w);
    TrylockQueues(w, f, m, t, w');
    MutexPart(w, m);
    TrylockEffect(w, f, m, t, w');
    TrylockOthers(w, f, m, t, w');
    MutexesKept(w, w', m, f, f);
    FdsKept(w, w');
    Assemble(w, w', f, f);
  }

  lemma TimedlockSlowQueue(w: World, f: FiberId, w': World, q: QueueId)
    requires w.Ctl(f).RetryTimedlock? && w' == DoTimedlockSlow(w, f)
    ensures w'.mem.Queue(q) == Moved(w.mem.Queue(q), q, f, None, PlaceOf(w'.Ctl(f)))
  {
  }

  lemma TimedlockSlowPlaces(w: World, f: FiberId, w': World)
    requires w.Ctl(f).RetryTimedlock? && w' == DoTimedlockSlow(w, f)
    requires Places(w)
    ensures Places(w')
  {
    forall q: QueueId
      ensures w'.mem.Queue(q) == Moved(w.mem.Queue(q), q, f, PlaceOf(w.Ctl(f)), PlaceOf(w'.Ctl(f)))
    {
      TimedlockSlowQueue(w, f, w', q);
    }
    PlacesMove(w, w', f);
  }

  lemma TimedlockSlowTimers(w: World, f: FiberId, w': World)
    requires w.Ctl(f).RetryTimedlock? && w' == DoTimedlockSlow(w, f)
    requires Timers(w)
    ensures Timers(w')
  {
    if w.mem.M(w.Ctl(f).mutex).owner == None {
      TimersKept(w, w');
    } else {
      TimersInsert(w, w', f);
    }
  }

  lemma TimedlockSlowSelf(w: World, f: FiberId, w': World)
    requires w.Ctl(f).RetryTimedlock? && 0 < ToInt64(w.Ctl(f).timeout) && w' == DoTimedlockSlow(w, f)
    ensures FiberOk(w', f)
  {
  }

  lemma TimedlockSlowMutex(w: World, f: FiberId, w': World)
    requires w.Ctl(f).RetryTimedlock? && w' == DoTimedlockSlow(w, f)
    requires MutexOk(w, w.Ctl(f).mutex)
    ensures MutexOk(w', w.Ctl(f).mutex)
  {
  }

  lemma TimedlockSlowOthers(w: World, f: FiberId, w': World)
    requires w.Ctl(f).RetryTimedlock? && w' == DoTimedlockSlow(w, f)
    ensures forall x: FiberId :: x != f ==> Untouched(w, w', x)
    ensures forall n: MutexId :: n != w.Ctl(f).mutex ==> w'.mem.M(n) == w.mem.M(n)
    ensures SameElsewhere(w, w')
  {
  }

  lemma TimedlockSlowKeeps(w: World, f: FiberId, w': World)
    requires Inv(w) && w.Ctl(f).RetryTimedlock? && w' == DoTimedlockSlow(w, f)
    requires 0 < ToInt64(w.Ctl(f).timeout)
    ensures Inv(w')
  {
    hide Inv, Places, Timers, FiberOk, MutexOk, NoLostWakeup, Untouched;
    var m := w.Ctl(f).mutex;
    QueueParts(w);
    TimedlockSlowPlaces(w, f, w');
    TimedlockSlowTimers(w, f, w');
    MutexPart(w, m);
    TimedlockSlowSelf(w, f, w');
    TimedlockSlowMutex(w, f, w');
    TimedlockSlowOthers(w, f, w');
    MutexesKept(w, w', m, f, f);
    FdsKept(w, w');
    Assemble(w, w', f, f);
  }

  // ---- melon_mutex_unlock -------------------------------------------------------------------

  lemma UnlockQueues(w: World, f: FiberId, m: MutexId, w': World)
    requires w.Ctl(f) == Running && DoUnlock(w, f, m) == Ok(w')
    requires Places(w) && Timers(w)
    ensures Places(w') && Timers(w')
  {
    PlacesMove(w, w', f);
    TimersKept(w, w');
  }

  lemma UnlockEffect(w: World, f: FiberId, m: MutexId, w': World)
    requires w.Ctl(f) == Running && w.Owns(f, m) && DoUnlock(w, f, m) == Ok(w')
    requires MutexOk(w, m)
    ensures FiberOk(w', f) && MutexOk(w', m)
    ensures forall x: FiberId :: x != f ==> Untouched(w, w', x)
    ensures forall n: MutexId :: n != m ==> w'.mem.M(n) == w.mem.M(n)
    ensures SameElsewhere(w, w')
  {
  }

  lemma UnlockKeeps(w: World, f: FiberId, m: MutexId, w': World)
    requires Inv(w) && w.Ctl(f) == Running && w.Owns(f, m) && DoUnlock(w, f, m) == Ok(w')
    ensures Inv(w')
  {
    hide Inv, Places, Timers, FiberOk, MutexOk, NoLostWakeup, Untouched;
    QueueParts(w);
    UnlockQueues(w, f, m, w');
    MutexPart(w, m);
    UnlockEffect(w, f, m, w');
    MutexesKept(w, w', m, f, f);
    FdsKept(w, w');
    Assemble(w, w', f, f);
  }

  lemma UnlockFastPlaces(w: World, f: FiberId, w': World)
    requires ReleasingMutex(w.Ctl(f)).Some? && w' == DoUnlockFast(w, f)
    requires Places(w)
    ensures Places(w')
  {
    assert PlaceOf(w'.Ctl(f)) == PlaceOf(w.Ctl(f));
    assert forall q: QueueId :: w'.mem.Queue(q) == w.mem.Queue(q);
    PlacesMove(w, w', f);
  }

  lemma UnlockFastTimers(w: World, f: FiberId, w': World)
    requires ReleasingMutex(w.Ctl(f)).Some? && w' == DoUnlockFast(w, f)
    requires Timers(w)
    ensures Timers(w')
  {
    TimersKept(w, w');
  }

  lemma UnlockFastEffect(w: World, f: FiberId, m: MutexId, w': World)
    requires ReleasingMutex(w.Ctl(f)).Some? && m == ReleasingMutex(w.Ctl(f)).value.0 && w' == DoUnlockFast(w, f)
    requires MutexOk(w, m) && FiberOk(w, f)
    ensures FiberOk(w', f) && MutexOk(w', m)
  {
  }

  lemma UnlockFastOthers(w: World, f: FiberId, m: MutexId, w': World)
    requires ReleasingMutex(w.Ctl(f)).Some? && m == ReleasingMutex(w.Ctl(f)).value.0 && w' == DoUnlockFast(w, f)
    requires FiberOk(w, f)
    ensures forall x: FiberId :: x != f ==> Untouched(w, w', x)
    ensures forall n: MutexId :: n != m ==> w'.mem.M(n) == w.mem.M(n)
    ensures SameElsewhere(w, w')
  {
  }

  lemma UnlockFastKeeps(w: World, f: FiberId, w': World)
    requires Inv(w) && ReleasingMutex(w.Ctl(f)).Some? && w' == DoUnlockFast(w, f)
    ensures Inv(w')
  {
    hide Inv, Places, Timers, FiberOk, MutexOk, NoLostWakeup, Untouched;
    var m := ReleasingMutex(w.Ctl(f)).value.0;
    QueueParts(w);
    UnlockFastPlaces(w, f, w');
    UnlockFastTimers(w, f, w');
    MutexPart(w, m);
    FiberPart(w, f);
    UnlockFastEffect(w, f, m, w');
    UnlockFastOthers(w, f, m, w');
    MutexesKept(w, w', m, f, f);
    FdsKept(w, w');
    Assemble(w, w', f, f);
  }

  /** The hand-off found the queue empty: its only waiter had timed out in the meantime. */
  lemma HandoffToNobodyKeeps(w: World, f: FiberId, m: MutexId, w': World)
    requires Inv(w) && ReleasingMutex(w.Ctl(f)).Some? && m == ReleasingMutex(w.Ctl(f)).value.0
    requires w.mem.M(m).lockQueue == [] && DoUnlockHandoff(w, f) == Ok(w')
    ensures Inv(w')
  {
    assert w' == DoUnlockFast(w, f);
    UnlockFastKeeps(w, f, w');
  }

  /** The hand-off of `m` by `f` to the head waiter `g`. */
  ghost predicate HandsTo(w: World, f: FiberId, m: MutexId, g: FiberId, w': World) {
    && ReleasingMutex(w.Ctl(f)).Some? && m == ReleasingMutex(w.Ctl(f)).value.0
    && w.mem.M(m).lockQueue != [] && g == w.mem.M(m).lockQueue[0]
    && DoUnlockHandoff(w, f) == Ok(w')
  }

  lemma HandoffHead(w: World, f: FiberId, m: MutexId, g: FiberId)
    requires Places(w) && ReleasingMutex(w.Ctl(f)).Some?
    requires w.mem.M(m).lockQueue != [] && g == w.mem.M(m).lockQueue[0]
    ensures g != f && w.Ctl(g).Locking? && w.Ctl(g).mutex == m
  {
    assert g in w.mem.Queue(LockQueue(m));
  }

  lemma HandoffQueue(w: World, f: FiberId, m: MutexId, g: FiberId, w': World, q: QueueId)
    requires HandsTo(w, f, m, g, w') && g != f && w.Ctl(g).Locking? && w.Ctl(g).mutex == m
    ensures w'.mem.Queue(q) == Moved(w.mem.Queue(q), q, g, Some(LockQueue(m)), Some(ReadyQueue))
    ensures PlaceOf(w'.Ctl(g)) == Some(ReadyQueue)
    ensures forall x: FiberId :: x != g ==> PlaceOf(w'.Ctl(x)) == PlaceOf(w.Ctl(x))
  {
    WithoutHead(w.mem.M(m).lockQueue);
  }

  lemma HandoffPlaces(w: World, f: FiberId, m: MutexId, g: FiberId, w': World)
    requires HandsTo(w, f, m, g, w')
    requires Places(w)
    ensures Places(w')
  {
    HandoffHead(w, f, m, g);
    hide Places, HandsTo;
    forall q: QueueId
      ensures w'.mem.Queue(q) == Moved(w.mem.Queue(q), q, g, Some(LockQueue(m)), Some(ReadyQueue))
    {
      HandoffQueue(w, f, m, g, w', q);
    }
    HandoffQueue(w, f, m, g, w', ReadyQueue);
    PlacesMove(w, w', g);
  }

  lemma HandoffTimers(w: World, f: FiberId, m: MutexId, g: FiberId, w': World)
    requires HandsTo(w, f, m, g, w') && g != f && w.Ctl(g).Locking? && w.Ctl(g).mutex == m
    requires Timers(w) && FiberOk(w, g)
    ensures Timers(w')
  {
    if InTimers(w.Ctl(g)) {
      TimersRemove(w, w', g);
    } else {
      TimersKept(w, w');
    }
  }

  lemma HandoffMutex(w: World, f: FiberId, m: MutexId, g: FiberId, w': World)
    requires HandsTo(w, f, m, g, w') && g != f && FiberOk(w, f) && MutexOk(w, m)
    ensures MutexOk(w', m)
    ensures w'.mem.M(m) == w.mem.M(m).(owner := Some(g), lockQueue := w.mem.M(m).lockQueue[1..], lockCount := 1)
  {
  }

  lemma HandoffSelf(w: World, f: FiberId, m: MutexId, g: FiberId, w': World)
    requires HandsTo(w, f, m, g, w') && g != f && FiberOk(w, f)
    requires w'.mem.M(m).owner == Some(g)
    ensures FiberOk(w', f)
  {
  }

  lemma HandoffNext(w: World, f: FiberId, m: MutexId, g: FiberId, w': World)
    requires HandsTo(w, f, m, g, w') && g != f && w.Ctl(g).Locking? && w.Ctl(g).mutex == m
    requires FiberOk(w, f) && FiberOk(w, g)
    requires w'.mem.M(m).owner == Some(g) && w'.mem.M(m).lockCount == 1
    ensures FiberOk(w', g)
  {
  }

  lemma HandoffOthers(w: World, f: FiberId, m: MutexId, g: FiberId, w': World)
    requires HandsTo(w, f, m, g, w') && FiberOk(w, f)
    ensures forall x: FiberId :: x != f && x != g ==> Untouched(w, w', x)
    ensures forall n: MutexId :: n != m ==> w'.mem.M(n) == w.mem.M(n)
    ensures SameElsewhere(w, w')
  {
  }

  lemma HandoffToHeadKeeps(w: World, f: FiberId, m: MutexId, g: FiberId, w': World)
    requires Inv(w) && HandsTo(w, f, m, g, w')
    ensures Inv(w')
  {
    hide Inv, Places, Timers, FiberOk, MutexOk, NoLostWakeup, Untouched;
    QueueParts(w);
    HandoffHead(w, f, m, g);
    MutexPart(w, m);
    FiberPart(w, f);
    FiberPart(w, g);
    HandoffPlaces(w, f, m, g, w');
    HandoffTimers(w, f, m, g, w');
    HandoffMutex(w, f, m, g, w');
    HandoffSelf(w, f, m, g, w');
    HandoffNext(w, f, m, g, w');
    HandoffOthers(w, f, m, g, w');
    MutexesKept(w, w', m, f, g);
    FdsKept(w, w');
    Assemble(w, w', f, g);
  }

  lemma HandoffKeeps(w: World, f: FiberId, w': World)
    requires Inv(w) && ReleasingMutex(w.Ctl(f)).Some? && DoUnlockHandoff(w, f) == Ok(w')
    ensures Inv(w')
  {
    hide Inv;
    var m := ReleasingMutex(w.Ctl(f)).value.0;
    if w.mem.M(m).lockQueue == [] {
      HandoffToNobodyKeeps(w, f, m, w');
    } else {
      HandoffToHeadKeeps(w, f, m, w.mem.M(m).lockQueue[0], w');
    }
  }
}

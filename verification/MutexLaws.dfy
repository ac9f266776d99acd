/** What the calls of src/mutex.c and src/cond.c do to a mutex, in terms of its owner, its depth and its
    line: when an attempt succeeds, how deep a recursive mutex is held, and what a wait gives back. */
module MutexLaws {
  import opened Memory
  import opened Machine
  import opened Invariant
  import Regions
  import Theorems
  import Outcomes
  import Calls
  import PreserveMutex
  import PreserveCond
  import PreserveTimer

  // ---- When an attempt succeeds -------------------------------------------------------------

  /** A fiber can take a mutex that is free, or that is recursive and its own. */
  predicate Available(mem: Mem, f: FiberId, m: MutexId) {
    mem.M(m).owner == None || (mem.M(m).isRecursive && mem.M(m).owner == Some(f))
  }

  /** `f` holds `m` one level deeper, and nothing else has changed. */
  ghost predicate Deeper(mem: Mem, f: FiberId, m: MutexId, mem': Mem) {
    && mem'.M(m) == mem.M(m).(owner := Some(f), lockCount := mem.M(m).lockCount + 1)
    && (forall n: MutexId :: n != m ==> mem'.M(n) == mem.M(n))
    && mem'.(mutexes := mem.mutexes) == mem
  }

  /** melon_mutex_trylock succeeds exactly on an available mutex; a failed attempt changes nothing. */
  lemma TrylockExactly(w: World, f: FiberId, m: MutexId, w': World)
    requires Next(w, Step.Trylock(f, m), w')
    ensures w'.Ctl(f) == Running && (w'.Ret(f) == RetOk || w'.Ret(f) == RetBusy)
    ensures w'.Ret(f) == RetOk <==> Available(w.mem, f, m)
    ensures w'.Ret(f) == RetOk ==> Deeper(w.mem, f, m, w'.mem)
    ensures w'.Ret(f) == RetBusy ==> w'.mem == w.mem
  {
  }

  /** melon_mutex_timedlock returns at once exactly on an available mutex; otherwise it goes on to its
      locked part, and nothing has changed. */
  lemma TimedlockExactly(w: World, f: FiberId, m: MutexId, t: nat, w': World)
    requires Next(w, Step.Timedlock(f, m, t), w')
    ensures
      if Available(w.mem, f, m) then w'.Ctl(f) == Running && w'.Ret(f) == RetOk && Deeper(w.mem, f, m, w'.mem)
      else w'.Ctl(f) == RetryTimedlock(m, t) && w'.mem == w.mem
  {
  }

  /** The locked part takes a mutex that has become free, and otherwise joins the end of the line, with
      the timeout as its timer. */
  lemma TimedlockSlowExactly(w: World, f: FiberId, w': World)
    requires Inv(w) && Next(w, Step.TimedlockSlow(f), w')
    ensures
      var RetryTimedlock(m, t) := w.Ctl(f);
      if w.mem.M(m).owner == None then
        w'.Ctl(f) == Running && w'.Ret(f) == RetOk && Deeper(w.mem, f, m, w'.mem) && w'.mem.M(m).lockCount == 1
      else
        && w'.Ctl(f) == Locking(m, ByTimedlock(w.Owns(f, m)))
        && w'.mem.M(m) == w.mem.M(m).(lockQueue := w.mem.M(m).lockQueue + [f])
        && (forall n: MutexId :: n != m ==> w'.mem.M(n) == w.mem.M(n))
        && w'.mem.F(f).timer == t && f in w'.mem.timerQueue
  {
    hide Inv, Regions.TimedlockSlow;
    FiberPart(w, f);
    MutexPart(w, w.Ctl(f).mutex);
    SlowStep(w, f, w');
    SlowLaw(w.mem, f, w.Ctl(f).mutex, w.Ctl(f).timeout);
    hide Next;
  }

  lemma SlowStep(w: World, f: FiberId, w': World)
    requires Next(w, Step.TimedlockSlow(f), w') && FiberOk(w, f)
    ensures w.Ctl(f).RetryTimedlock?
    ensures
      var RetryTimedlock(m, t) := w.Ctl(f);
      var (mem, queued) := Regions.TimedlockSlow(w.mem, f, m, t);
      && w'.mem == mem
      && (queued ==> w'.Ctl(f) == Locking(m, ByTimedlock(w.Owns(f, m))))
      && (!queued ==> w'.Ctl(f) == Running && w'.Ret(f) == RetOk)
  {
    hide Regions.TimedlockSlow;
  }

  lemma SlowLaw(mem: Mem, f: FiberId, m: MutexId, t: int)
    ensures
      var (mem', queued) := Regions.TimedlockSlow(mem, f, m, t);
      && (queued <==> mem.M(m).owner != None)
      && (!queued ==> Deeper(mem, f, m, mem'))
      && (queued ==>
            && mem'.M(m) == mem.M(m).(lockQueue := mem.M(m).lockQueue + [f])
            && (forall n: MutexId :: n != m ==> mem'.M(n) == mem.M(n))
            && mem'.F(f).timer == t && f in mem'.timerQueue)
  {
    Outcomes.SlowMemory(mem, f, m, t);
    hide Regions.TimerPush;
    Theorems.TimerPushMutexes();
  }

  /** melon_mutex_lock takes an available mutex at once, and otherwise joins the end of the line. */
  lemma LockExactly(w: World, f: FiberId, m: MutexId, w': World)
    requires Next(w, Step.Lock(f, m), w')
    ensures Available(w.mem, f, m) <==> w'.Ctl(f) == Running
    ensures Available(w.mem, f, m) ==>
              var count := if w.Owns(f, m) then w.mem.M(m).lockCount + 1 else 1;
              w'.mem.M(m) == w.mem.M(m).(owner := Some(f), lockCount := count)
    ensures !Available(w.mem, f, m) ==>
              && w'.Ctl(f) == Locking(m, ByLock)
              && w'.mem.M(m) == w.mem.M(m).(lockQueue := w.mem.M(m).lockQueue + [f])
    ensures forall n: MutexId :: n != m ==> w'.mem.M(n) == w.mem.M(n)
  {
  }

  // ---- What a release does ------------------------------------------------------------------

  /** melon_mutex_unlock gives up one level, and goes on to release the mutex exactly if it was the last. */
  lemma UnlockExactly(w: World, f: FiberId, m: MutexId, w': World)
    requires Inv(w) && Next(w, Step.Unlock(f, m), w')
    ensures w.mem.M(m).lockCount >= 1
    ensures w'.mem.M(m) == w.mem.M(m).(lockCount := w.mem.M(m).lockCount - 1)
    ensures forall n: MutexId :: n != m ==> w'.mem.M(n) == w.mem.M(n)
    ensures w'.Ctl(f) == if w.mem.M(m).lockCount > 1 then Running else Unlocking(m, false)
  {
    MutexPart(w, m);
    hide Inv;
  }

  // ---- How deep a fiber holds a mutex -------------------------------------------------------

  function Depth(w: World, f: FiberId, m: MutexId): int {
    if w.Owns(f, m) then w.mem.M(m).lockCount else 0
  }

  /** An attempt of `f` succeeds, or `f` is handed the mutex in whose line it stood. */
  predicate Acquires(w: World, s: Step, w': World, f: FiberId, m: MutexId) {
    || (Theorems.AsksFor(w, s, f, m) && w'.Ctl(f) == Running && (s.Trylock? ==> w'.Ret(f) == RetOk))
    || (w.Ctl(f).Locking? && w.Ctl(f).mutex == m && !w.Ctl(f).how.ByCond? && s.UnlockHandoff? && w'.Ctl(f).Runnable?)
  }

  /** `f`, which waited on a condition, has its mutex back. */
  predicate Restores(w: World, w': World, f: FiberId, m: MutexId) {
    w'.Ctl(f).Runnable?
    && ((w.Ctl(f).Waiting? && w.Ctl(f).mutex == m)
        || (w.Ctl(f).Locking? && w.Ctl(f).mutex == m && w.Ctl(f).how.ByCond?))
  }

  /** The depth after a step: one more for each acquisition, one less for each unlock, none while the
      fiber waits on a condition; a wait that ends gives back the depth that it saved if the mutex was
      free, and depth 1 if it had to be handed over. */
  function DepthAfter(w: World, s: Step, w': World, f: FiberId, m: MutexId): int {
    if Acquires(w, s, w', f, m) then Depth(w, f, m) + 1
    else if s == Step.Unlock(f, m) then Depth(w, f, m) - 1
    else if s == CondRelease(f) && w.Ctl(f).Waiting? && w.Ctl(f).mutex == m then 0
    else if Restores(w, w', f, m) then (if w.Ctl(f).Waiting? then w.mem.F(f).lockCount else 1)
    else Depth(w, f, m)
  }

  predicate IsAttempt(s: Step) {
    s.Lock? || s.Trylock? || s.Timedlock? || s.TimedlockSlow?
  }

  function Asked(w: World, s: Step): MutexId
    requires IsAttempt(s) && Enabled(w, s)
  {
    if s.TimedlockSlow? then w.Ctl(s.f).mutex else s.m
  }

  /** All four kinds of attempt: it takes the mutex, which was free or already the fiber's own, or leaves
      the owner and the depth alone. */
  ghost predicate AttemptEffect(w: World, s: Step, w': World, n: MutexId)
    requires IsAttempt(s)
  {
    var a, b := w.mem.M(n), w'.mem.M(n);
    && (forall k: MutexId :: k != n ==> w'.mem.M(k) == w.mem.M(k))
    && (forall g: FiberId :: g != s.f ==> w'.Ctl(g) == w.Ctl(g))
    && (w.Ctl(s.f) == Running || w.Ctl(s.f).RetryTimedlock?) && !w'.Ctl(s.f).Runnable?
    && (forall m: MutexId :: Theorems.AsksFor(w, s, s.f, m) <==> m == n)
    && (if w'.Ctl(s.f) == Running && (s.Trylock? ==> w'.Ret(s.f) == RetOk) then
          && (a.owner == None || a.owner == Some(s.f))
          && b.owner == Some(s.f) && b.lockCount == (if a.owner == None then 1 else a.lockCount + 1)
        else b.owner == a.owner && b.lockCount == a.lockCount)
  }

  lemma AttemptControl(w: World, s: Step, w': World)
    requires IsAttempt(s) && Next(w, s, w')
    ensures forall g: FiberId :: g != s.f ==> w'.Ctl(g) == w.Ctl(g)
    ensures (w.Ctl(s.f) == Running || w.Ctl(s.f).RetryTimedlock?) && !w'.Ctl(s.f).Runnable?
    ensures forall m: MutexId :: Theorems.AsksFor(w, s, s.f, m) <==> m == Asked(w, s)
  {
  }

  lemma LockAttempt(w: World, f: FiberId, m: MutexId, w': World)
    requires Inv(w) && Next(w, Step.Lock(f, m), w')
    ensures AttemptEffect(w, Step.Lock(f, m), w', m)
  {
    AttemptControl(w, Step.Lock(f, m), w');
    LockExactly(w, f, m, w');
    MutexPart(w, m);
    hide Inv, Next;
  }

  lemma TryAttempt(w: World, s: Step, w': World)
    requires Inv(w) && Next(w, s, w') && (s.Trylock? || s.Timedlock?)
    ensures AttemptEffect(w, s, w', s.m)
  {
    AttemptControl(w, s, w');
    if s.Trylock? { TrylockExactly(w, s.f, s.m, w'); } else { TimedlockExactly(w, s.f, s.m, s.timeout, w'); }
    MutexPart(w, s.m);
    hide Inv, Next;
  }

  lemma SlowAttempt(w: World, f: FiberId, w': World)
    requires Inv(w) && Next(w, Step.TimedlockSlow(f), w')
    ensures w.Ctl(f).RetryTimedlock? && AttemptEffect(w, Step.TimedlockSlow(f), w', w.Ctl(f).mutex)
  {
    AttemptControl(w, Step.TimedlockSlow(f), w');
    SlowStarts(w, f, w');
    TimedlockSlowExactly(w, f, w');
    MutexPart(w, w.Ctl(f).mutex);
    hide Inv, Next;
  }

  lemma SlowStarts(w: World, f: FiberId, w': World)
    requires Next(w, Step.TimedlockSlow(f), w')
    ensures w.Ctl(f).RetryTimedlock?
  {
  }

  lemma AttemptEffects(w: World, s: Step, w': World)
    requires Inv(w) && IsAttempt(s) && Next(w, s, w')
    ensures AttemptEffect(w, s, w', Asked(w, s))
  {
    hide Inv, AttemptEffect;
    match s
    case Lock(f, m) => LockAttempt(w, f, m, w');
    case TimedlockSlow(f) => SlowAttempt(w, f, w');
    case _ => TryAttempt(w, s, w');
  }

  lemma AttemptDepth(w: World, s: Step, w': World, f: FiberId, m: MutexId)
    requires Inv(w) && IsAttempt(s) && Next(w, s, w')
    ensures Depth(w', f, m) == DepthAfter(w, s, w', f, m)
  {
    Calls.EnabledStep(w, s, w');
    hide Inv, Next, AttemptEffect;
    AttemptEffects(w, s, w');
    if s.f == f { OwnAttemptDepth(w, s, w', Asked(w, s), m); } else { OtherAttemptDepth(w, s, w', Asked(w, s), f, m); }
  }

  lemma OwnAttemptDepth(w: World, s: Step, w': World, n: MutexId, m: MutexId)
    requires IsAttempt(s) && AttemptEffect(w, s, w', n)
    ensures Depth(w', s.f, m) == DepthAfter(w, s, w', s.f, m)
  {
  }

  lemma OtherAttemptDepth(w: World, s: Step, w': World, n: MutexId, f: FiberId, m: MutexId)
    requires IsAttempt(s) && AttemptEffect(w, s, w', n) && f != s.f
    ensures Depth(w', f, m) == DepthAfter(w, s, w', f, m)
  {
  }

  /** A release: the owner gives up its last level, and hands the mutex to the head of its line, or
      leaves it free. */
  ghost predicate ReleaseEffect(w: World, s: Step, w': World, n: MutexId)
    requires s.UnlockFast? || s.UnlockHandoff?
  {
    var q := w.mem.M(n).lockQueue;
    && w.Owns(s.f, n) && w.mem.M(n).lockCount == 0
    && (forall k: MutexId :: k != n ==> w'.mem.M(k) == w.mem.M(k))
    && (if q == [] then w'.mem.M(n) == w.mem.M(n).(owner := None)
        else if s.UnlockFast? then w'.mem.M(n) == w.mem.M(n)
        else
          && w'.mem.M(n) == w.mem.M(n).(owner := Some(q[0]), lockQueue := q[1..], lockCount := 1)
          && w.Ctl(q[0]).Locking? && w.Ctl(q[0]).mutex == n && w'.Ctl(q[0]) == Granted(w.Ctl(q[0])))
    && (forall g: FiberId :: g != s.f && !(s.UnlockHandoff? && q != [] && g == q[0]) ==> w'.Ctl(g) == w.Ctl(g))
    && !w.Ctl(s.f).Locking? && (w.Ctl(s.f).Waiting? ==> w'.Ctl(s.f).Waiting?)
    && (!w.Ctl(s.f).Waiting? ==> w.Ctl(s.f).Unlocking?)
  }

  lemma FastEffect(w: World, f: FiberId, w': World)
    requires Inv(w) && Next(w, UnlockFast(f), w')
    ensures ReleasingMutex(w.Ctl(f)).Some? && ReleaseEffect(w, UnlockFast(f), w', ReleasingMutex(w.Ctl(f)).value.0)
  {
    FiberPart(w, f);
    hide Inv;
  }

  lemma HandoffEffect(w: World, f: FiberId, w': World)
    requires Inv(w) && Next(w, UnlockHandoff(f), w')
    ensures
      ReleasingMutex(w.Ctl(f)).Some? && ReleaseEffect(w, UnlockHandoff(f), w', ReleasingMutex(w.Ctl(f)).value.0)
  {
    hide Inv, Places, Timers, MutexOk, Untouched, ReleaseEffect, DoUnlockHandoff;
    var n := ReleasingMutex(w.Ctl(f)).value.0;
    var q := w.mem.M(n).lockQueue;
    FiberPart(w, f);
    MutexPart(w, n);
    if q != [] {
      assert PreserveMutex.HandsTo(w, f, n, q[0], w');
      QueueParts(w);
      HandsToHead(w, f, n, q[0], w');
    } else {
      NobodyToHandTo(w, f, w');
    }
  }

  lemma NobodyToHandTo(w: World, f: FiberId, w': World)
    requires FiberOk(w, f) && Next(w, UnlockHandoff(f), w')
    requires ReleasingMutex(w.Ctl(f)).Some? && w.mem.M(ReleasingMutex(w.Ctl(f)).value.0).lockQueue == []
    ensures ReleaseEffect(w, UnlockHandoff(f), w', ReleasingMutex(w.Ctl(f)).value.0)
  {
  }

  lemma HandsToHead(w: World, f: FiberId, n: MutexId, g: FiberId, w': World)
    requires Places(w) && FiberOk(w, f) && MutexOk(w, n) && PreserveMutex.HandsTo(w, f, n, g, w')
    requires ReleasingMutex(w.Ctl(f)) == Some((n, true))
    ensures ReleaseEffect(w, UnlockHandoff(f), w', n)
  {
    PreserveMutex.HandoffHead(w, f, n, g);
    PreserveMutex.HandoffMutex(w, f, n, g, w');
    PreserveMutex.HandoffOthers(w, f, n, g, w');
    HandsToControl(w, f, n, g, w');
    hide PreserveMutex.HandsTo, Places, MutexOk, Untouched;
  }

  lemma HandsToControl(w: World, f: FiberId, n: MutexId, g: FiberId, w': World)
    requires PreserveMutex.HandsTo(w, f, n, g, w') && f != g && w.Ctl(g).Locking?
    ensures w.mem.M(n).lockQueue != [] && g == w.mem.M(n).lockQueue[0]
    ensures w'.Ctl(g) == Granted(w.Ctl(g)) && w'.Ctl(f) == AfterUnlock(w.Ctl(f))
    ensures forall x: FiberId :: x != f && x != g ==> w'.Ctl(x) == w.Ctl(x)
  {
  }

  lemma ReleaseDepth(w: World, s: Step, w': World, f: FiberId, m: MutexId)
    requires Inv(w) && Next(w, s, w') && (s.UnlockFast? || s.UnlockHandoff?)
    ensures Depth(w', f, m) == DepthAfter(w, s, w', f, m)
  {
    hide Inv, Next, ReleaseEffect, Depth, DepthAfter;
    if s.UnlockFast? { FastEffect(w, s.f, w'); } else { HandoffEffect(w, s.f, w'); }
    DepthOfRelease(w, s, w', ReleasingMutex(w.Ctl(s.f)).value.0, f, m);
  }

  lemma DepthOfRelease(w: World, s: Step, w': World, n: MutexId, f: FiberId, m: MutexId)
    requires (s.UnlockFast? || s.UnlockHandoff?) && ReleaseEffect(w, s, w', n)
    ensures Depth(w', f, m) == DepthAfter(w, s, w', f, m)
  {
  }

  /** A waiter `x` is taken off its condition and goes through lock2; nobody else becomes runnable. */
  ghost predicate WakeEffect(w: World, w': World, x: FiberId, expired: bool) {
    && w.Ctl(x).Waiting? && PreserveCond.RelocksOn(w, x, w')
    && w'.Ctl(x) == Relocked(w.mem, w.Ctl(x), expired)
    && forall y: FiberId :: y != x ==> w'.Ctl(y) == w.Ctl(y) || (w.Ctl(y).SignalLoop? && w'.Ctl(y).SignalLoop?)
  }

  lemma SignalWakes(w: World, g: FiberId, w': World)
    requires Inv(w) && Next(w, Step.SignalOne(g), w')
    ensures w.Ctl(g).SignalLoop? && w.mem.C(w.Ctl(g).cond) != []
    ensures WakeEffect(w, w', w.mem.C(w.Ctl(g).cond)[0], false)
  {
    hide Inv, Regions.SignalOne, FiberOk, PreserveCond.RelocksOn;
    var c := w.Ctl(g).cond;
    var x := w.mem.C(c)[0];
    Outcomes.SignalledStarts(w, g, w', x);
    PreserveCond.SignalOneMemory(w, g, c, x, w');
    PreserveCond.SignalOneControl(w, g, c, x, w');
  }

  lemma TimerFires(w: World, now: int, w': World)
    requires Inv(w) && Next(w, Fire(now), w')
    ensures w.mem.timerQueue != [] && PreserveTimer.Fires(w, w.mem.timerQueue[0], w')
    ensures w.mem.F(w.mem.timerQueue[0]).timer <= now
  {
    var x := w.mem.timerQueue[0];
    assert x in w.mem.timerQueue;
    FiberPart(w, x);
    Outcomes.QueueMembership(w, x, ReadyQueue);
    hide Inv, FiberOk, DoFire;
  }

  lemma WakeDepth(w: World, s: Step, w': World, x: FiberId, f: FiberId, m: MutexId)
    requires (s.SignalOne? || s.Fire?) && WakeEffect(w, w', x, s.Fire?)
    ensures Depth(w', f, m) == DepthAfter(w, s, w', f, m)
  {
  }

  lemma FireDepth(w: World, now: int, w': World, f: FiberId, m: MutexId)
    requires Inv(w) && Next(w, Fire(now), w')
    ensures Depth(w', f, m) == DepthAfter(w, Fire(now), w', f, m)
  {
    hide Inv, Next, PreserveTimer.Fires;
    TimerFires(w, now, w');
    var x := w.mem.timerQueue[0];
    PreserveTimer.FireControl(w, x, w');
    PreserveTimer.FireMutexes(w, x, w');
    hide PreserveCond.RelocksOn;
    if w.Ctl(x).Waiting? { WakeDepth(w, Fire(now), w', x, f, m); }
  }

  lemma UnlockDepth(w: World, s: Step, w': World, f: FiberId, m: MutexId)
    requires Inv(w) && Next(w, s, w') && s.Unlock?
    ensures Depth(w', f, m) == DepthAfter(w, s, w', f, m)
  {
    UnlockExactly(w, s.f, s.m, w');
    hide Inv;
  }

  lemma CondReleaseDepth(w: World, g: FiberId, w': World, f: FiberId, m: MutexId)
    requires Inv(w) && Next(w, CondRelease(g), w')
    ensures Depth(w', f, m) == DepthAfter(w, CondRelease(g), w', f, m)
  {
    FiberPart(w, g);
    hide Inv;
  }

  /** A step that does not concern a mutex. */
  predicate Elsewhere(s: Step) {
    !IsAttempt(s) && !s.Unlock? && !s.UnlockFast? && !s.UnlockHandoff? && !s.CondRelease? && !s.SignalOne? && !s.Fire?
  }

  lemma ElsewhereDepth(w: World, s: Step, w': World, f: FiberId, m: MutexId)
    requires Inv(w) && Inv(w') && Next(w, s, w') && Elsewhere(s)
    ensures Depth(w', f, m) == DepthAfter(w, s, w', f, m)
  {
    hide Inv, Next;
    Theorems.OthersLeaveMutexes(w, s, w');
    if w.Ctl(f).Locking? {
      Outcomes.LockWaiterMoves(w, s, w', f);
    } else if w.Ctl(f).Waiting? {
      hide Outcomes.LeftCondition;
      Outcomes.CondWaiterMoves(w, s, w', f);
    }
  }

  /** Every step changes how deep a fiber holds a mutex as DepthAfter says. */
  lemma DepthStep(w: World, s: Step, w': World, f: FiberId, m: MutexId)
    requires Inv(w) && Inv(w') && Next(w, s, w')
    ensures Depth(w', f, m) == DepthAfter(w, s, w', f, m)
  {
    hide Inv, Next, Depth, DepthAfter, WakeEffect;
    if IsAttempt(s) {
      AttemptDepth(w, s, w', f, m);
    } else if s.Unlock? {
      UnlockDepth(w, s, w', f, m);
    } else if s.UnlockFast? || s.UnlockHandoff? {
      ReleaseDepth(w, s, w', f, m);
    } else if s.CondRelease? {
      CondReleaseDepth(w, s.f, w', f, m);
    } else if s.SignalOne? {
      SignalWakes(w, s.f, w');
      WakeDepth(w, s, w', w.mem.C(w.Ctl(s.f).cond)[0], f, m);
    } else if s.Fire? {
      FireDepth(w, s.now, w', f, m);
    } else {
      ElsewhereDepth(w, s, w', f, m);
    }
  }

  // ---- Who stays without a mutex ------------------------------------------------------------

  lemma AttemptKeepsKind(w: World, s: Step, w': World, m: MutexId)
    requires Inv(w) && Next(w, s, w') && IsAttempt(s)
    ensures w'.mem.M(m).isRecursive == w.mem.M(m).isRecursive
  {
    hide Inv;
    match s
    case Lock(f, n) => LockExactly(w, f, n, w'); hide Next;
    case Trylock(f, n) => TrylockExactly(w, f, n, w'); hide Next;
    case Timedlock(f, n, t) => TimedlockExactly(w, f, n, t, w'); hide Next;
    case TimedlockSlow(f) => TimedlockSlowExactly(w, f, w'); hide Next;
  }

  lemma CondReleaseKeepsKind(w: World, f: FiberId, w': World, m: MutexId)
    requires Next(w, CondRelease(f), w')
    ensures w'.mem.M(m).isRecursive == w.mem.M(m).isRecursive
  {
  }

  /** A mutex stays recursive or not. */
  lemma KindIsFixed(w: World, s: Step, w': World, m: MutexId)
    requires Inv(w) && Next(w, s, w')
    ensures w'.mem.M(m).isRecursive == w.mem.M(m).isRecursive
  {
    hide Inv, Next, PreserveTimer.Fires;
    if IsAttempt(s) {
      AttemptKeepsKind(w, s, w', m);
    } else if s.Unlock? {
      UnlockExactly(w, s.f, s.m, w');
    } else if s.UnlockFast? {
      FastEffect(w, s.f, w');
    } else if s.UnlockHandoff? {
      HandoffEffect(w, s.f, w');
    } else if s.CondRelease? {
      CondReleaseKeepsKind(w, s.f, w', m);
    } else if s.SignalOne? {
      SignalWakes(w, s.f, w');
    } else if s.Fire? {
      TimerFires(w, s.now, w');
      PreserveTimer.FireMutexes(w, w.mem.timerQueue[0], w');
    } else {
      Theorems.OthersLeaveMutexes(w, s, w');
    }
  }

  /** A running fiber that makes no call does not come to own a mutex. */
  lemma RunsWithout(w: World, s: Step, w': World, f: FiberId, m: MutexId)
    requires Inv(w) && Inv(w') && Next(w, s, w') && !w.Owns(f, m)
    requires w.Ctl(f) == Running && w'.Ctl(f) == Running && (Calls.IsCall(s) ==> s.f != f)
    ensures !w'.Owns(f, m)
  {
    hide Inv, Next;
    DepthStep(w, s, w', f, m);
    MutexPart(w', m);
    NoAttempt(w, s, w', f, m);
  }

  lemma NoAttempt(w: World, s: Step, w': World, f: FiberId, m: MutexId)
    requires Next(w, s, w') && w.Ctl(f) == Running && (Calls.IsCall(s) ==> s.f != f)
    ensures !Theorems.AsksFor(w, s, f, m) && s != Step.Unlock(f, m)
  {
    hide Apply;
  }
}

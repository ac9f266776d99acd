/** A blocking call with a timeout, from the moment it stops its fiber to its return, over any run. */
module Returns {
  import opened Memory
  import opened Machine
  import opened Invariant
  import Safety
  import Outcomes
  import Calls

  /** `f` is stopped in every world from `i` up to `j`, and runs again at `j`. */
  ghost predicate StopsUntil(ws: seq<World>, i: nat, j: nat, f: FiberId) {
    i < j < |ws| && (forall k :: i <= k < j ==> ws[k].Ctl(f) != Running) && ws[j].Ctl(f) == Running
  }

  lemma StepAt(ws: seq<World>, steps: seq<Step>, k: nat)
    requires Safety.CourteousRun(ws, steps) && k < |steps|
    ensures Inv(ws[k]) && Next(ws[k], steps[k], ws[k + 1]) && Inv(ws[k + 1])
  {
    Safety.RunInv(ws, steps, k);
    Safety.RunInv(ws, steps, k + 1);
    hide Inv;
  }

  // ---- melon_mutex_timedlock ----------------------------------------------------------------

  /** The step takes `f` out of the lock queue and out of the timer queue. */
  ghost predicate LeavesLock(w: World, s: Step, w': World, f: FiberId, m: MutexId, owned: bool) {
    && w.Ctl(f) == Locking(m, ByTimedlock(owned))
    && w'.Ctl(f) == Runnable(FromTimedlock(m, owned, s.Fire?))
    && f in w.mem.M(m).lockQueue && f in w.mem.timerQueue
    && f !in w'.mem.M(m).lockQueue && f !in w'.mem.timerQueue
    && (w'.Owns(f, m) <==> !s.Fire? || owned)
  }

  ghost predicate LeavesLockAt(ws: seq<World>, steps: seq<Step>, r: int, f: FiberId, m: MutexId, owned: bool) {
    0 <= r < |steps| && |ws| == |steps| + 1 && LeavesLock(ws[r], steps[r], ws[r + 1], f, m, owned)
  }

  /** A queued timed waiter stays queued or leaves; then it stays runnable or returns. */
  lemma LockStep(w: World, s: Step, w': World, f: FiberId, m: MutexId, owned: bool)
    requires Inv(w) && Inv(w') && Next(w, s, w')
    ensures w.Ctl(f) == Locking(m, ByTimedlock(owned)) ==> w'.Ctl(f) == w.Ctl(f) || LeavesLock(w, s, w', f, m, owned)
    ensures w.Ctl(f).Runnable? && w'.Ctl(f) != w.Ctl(f) ==> s.Dispatch? && w.mem.ready != [] && w.mem.ready[0] == f
  {
    hide Inv, Next;
    if w.Ctl(f) == Locking(m, ByTimedlock(owned)) && w'.Ctl(f) != w.Ctl(f) {
      Outcomes.TimedWaiterLeavesOnce(w, s, w', f);
    } else if w.Ctl(f).Runnable? {
      Calls.RunnableGoesOn(w, s, w', f);
    }
  }

  /** The step at `n` does not move `f`. */
  ghost predicate Stays(ws: seq<World>, n: nat, f: FiberId) {
    n + 1 < |ws| && ws[n + 1].Ctl(f) == ws[n].Ctl(f)
  }

  /** A stopped fiber is still queued, or has left at one earlier step. */
  lemma {:induction false} LockPath(ws: seq<World>, steps: seq<Step>, i: nat, k: nat, f: FiberId, m: MutexId,
                                    owned: bool) returns (r: nat)
    requires Safety.CourteousRun(ws, steps) && i <= k < |ws| == |steps| + 1
    requires ws[i].Ctl(f) == Locking(m, ByTimedlock(owned)) && forall n :: i <= n <= k ==> ws[n].Ctl(f) != Running
    ensures
      || (ws[k].Ctl(f) == Locking(m, ByTimedlock(owned))
          && forall n :: i <= n < k ==> Stays(ws, n, f))
      || (i <= r < k && LeavesLockAt(ws, steps, r, f, m, owned)
          && ws[k].Ctl(f) == Runnable(FromTimedlock(m, owned, steps[r].Fire?))
          && forall n :: i <= n < k && n != r ==> Stays(ws, n, f))
  {
    hide Safety.CourteousRun, Inv, Next, LeavesLock;
    if k == i {
      return 0;
    }
    r := LockPath(ws, steps, i, k - 1, f, m, owned);
    var w, s, w' := ws[k - 1], steps[k - 1], ws[k];
    StepAt(ws, steps, k - 1);
    LockStep(w, s, w', f, m, owned);
    if w'.Ctl(f) != w.Ctl(f) {
      if w.Ctl(f).Locking? {
        LeftFacts(w, s, w', f, m, owned);
        return k - 1;
      }
      Dispatched(w, s, w', f);
    }
  }

  lemma LeftFacts(w: World, s: Step, w': World, f: FiberId, m: MutexId, owned: bool)
    requires LeavesLock(w, s, w', f, m, owned)
    ensures w'.Ctl(f) == Runnable(FromTimedlock(m, owned, s.Fire?))
  {
  }

  lemma Dispatched(w: World, s: Step, w': World, f: FiberId)
    requires Inv(w) && Next(w, s, w') && s.Dispatch? && w.mem.ready != [] && w.mem.ready[0] == f
    ensures w'.Ctl(f) == Running
  {
    hide Inv, Next;
    Outcomes.DispatchFacts(w, w', f);
  }

  /** A fiber that was queued by melon_mutex_timedlock leaves both queues at exactly one step before it
      returns.  It returns -ETIMEDOUT if that step is its timer callback, and otherwise 0 as the owner.
      `owned` says that it owned the mutex already when it was queued: then it still does. */
  lemma TimedlockHasOneOutcome(ws: seq<World>, steps: seq<Step>, i: nat, j: nat, f: FiberId, m: MutexId, owned: bool)
    requires Safety.CourteousRun(ws, steps) && |ws| == |steps| + 1 && StopsUntil(ws, i, j, f)
    requires ws[i].Ctl(f) == Locking(m, ByTimedlock(owned))
    ensures exists r ::
              && i <= r < j && LeavesLockAt(ws, steps, r, f, m, owned)
              && (forall n :: i <= n < j && n != r ==> !LeavesLockAt(ws, steps, n, f, m, owned))
              && ws[j].Ret(f) == (if steps[r].Fire? then RetTimedOut else RetOk)
    ensures ws[j].Owns(f, m) <==> ws[j].Ret(f) == RetOk || owned
    ensures f !in ws[j].mem.timerQueue && forall q: QueueId :: f !in ws[j].mem.Queue(q)
  {
    hide Safety.CourteousRun, Inv, Next, LeavesLock;
    var r := LockPath(ws, steps, i, j - 1, f, m, owned);
    var w, s, w' := ws[j - 1], steps[j - 1], ws[j];
    StepAt(ws, steps, j - 1);
    LockStep(w, s, w', f, m, owned);
    if w.Ctl(f).Locking? {
      LeftFacts(w, s, w', f, m, owned);
    } else {
      Outcomes.TimedlockReturns(w, w', f, m, owned, steps[r].Fire?);
      forall n | i <= n < j && n != r ensures !LeavesLockAt(ws, steps, n, f, m, owned) {
        if n < j - 1 {
          assert Stays(ws, n, f);
          NotLeaving(ws[n], steps[n], ws[n + 1], f, m, owned);
        } else {
          NotLeaving(w, s, w', f, m, owned);
        }
      }
    }
  }

  lemma NotLeaving(w: World, s: Step, w': World, f: FiberId, m: MutexId, owned: bool)
    requires w'.Ctl(f) == w.Ctl(f) || w'.Ctl(f) == Running
    ensures !LeavesLock(w, s, w', f, m, owned)
  {
  }

  // ---- melon_cond_wait, melon_cond_timedwait ------------------------------------------------

  /** `f` waits on `c` and has not been taken off it. */
  predicate OnCond(ctl: Control, c: CondId, m: MutexId, timed: bool) {
    ctl.Waiting? && ctl.cond == c && ctl.mutex == m && ctl.timed == timed
  }

  /** It has been taken off, by its timer callback or by a signaller. */
  predicate OffCond(ctl: Control, c: CondId, m: MutexId, timed: bool, expired: bool) {
    ctl == Locking(m, ByCond(c, timed, expired)) || ctl == Runnable(FromCond(c, m, timed, expired))
  }

  /** The step takes `f` off the condition. */
  ghost predicate LeavesCond(w: World, s: Step, w': World, f: FiberId) {
    w.Ctl(f).Waiting? && (s.SignalOne? || s.Fire?) && Outcomes.LeftCondition(w, s, w', f)
  }

  ghost predicate LeavesCondAt(ws: seq<World>, steps: seq<Step>, r: int, f: FiberId) {
    0 <= r < |steps| && |ws| == |steps| + 1 && LeavesCond(ws[r], steps[r], ws[r + 1], f)
  }

  lemma WaitStep(w: World, s: Step, w': World, f: FiberId, c: CondId, m: MutexId, timed: bool)
    requires Inv(w) && Inv(w') && Next(w, s, w') && OnCond(w.Ctl(f), c, m, timed)
    ensures OnCond(w'.Ctl(f), c, m, timed) || (LeavesCond(w, s, w', f) && OffCond(w'.Ctl(f), c, m, timed, s.Fire?))
  {
    hide Inv, Next;
    Outcomes.CondWaiterMoves(w, s, w', f);
  }

  lemma RelockStep(w: World, s: Step, w': World, f: FiberId, c: CondId, m: MutexId, timed: bool, expired: bool)
    requires Inv(w) && Inv(w') && Next(w, s, w') && OffCond(w.Ctl(f), c, m, timed, expired)
    ensures
      || OffCond(w'.Ctl(f), c, m, timed, expired)
      || (w'.Ctl(f) == Running && w'.Owns(f, m) && w'.mem.M(m).lockCount >= 1
          && w'.Ret(f) == (if expired then RetTimedOut else RetOk)
          && f !in w'.mem.timerQueue && forall q: QueueId :: f !in w'.mem.Queue(q))
  {
    hide Inv, Next;
    if w.Ctl(f).Locking? {
      Calls.LockingGoesOn(w, s, w', f);
    } else {
      Calls.RunnableGoesOn(w, s, w', f);
      if w'.Ctl(f) != w.Ctl(f) {
        Dispatched(w, s, w', f);
        Outcomes.CondWaitReturns(w, w', f, c, m, timed, expired);
      }
    }
  }

  lemma {:induction false} WaitPath(
    ws: seq<World>, steps: seq<Step>, i: nat, k: nat, f: FiberId, c: CondId, m: MutexId, timed: bool) returns (r: nat)
    requires Safety.CourteousRun(ws, steps) && i <= k < |ws| == |steps| + 1
    requires OnCond(ws[i].Ctl(f), c, m, timed) && forall n :: i <= n <= k ==> ws[n].Ctl(f) != Running
    ensures
      || (OnCond(ws[k].Ctl(f), c, m, timed) && forall n :: i <= n < k ==> !LeavesCondAt(ws, steps, n, f))
      || (i <= r < k && LeavesCondAt(ws, steps, r, f) && OffCond(ws[k].Ctl(f), c, m, timed, steps[r].Fire?)
          && forall n :: i <= n < k && n != r ==> !LeavesCondAt(ws, steps, n, f))
  {
    hide Safety.CourteousRun, Inv, Next, LeavesCond;
    if k == i {
      return 0;
    }
    r := WaitPath(ws, steps, i, k - 1, f, c, m, timed);
    StepAt(ws, steps, k - 1);
    if OnCond(ws[k].Ctl(f), c, m, timed) || !OnCond(ws[k - 1].Ctl(f), c, m, timed) {
      NotLeavingCond(ws, steps, k - 1, f, c, m, timed);
    }
    if OnCond(ws[k - 1].Ctl(f), c, m, timed) {
      WaitStep(ws[k - 1], steps[k - 1], ws[k], f, c, m, timed);
      return k - 1;
    }
    RelockStep(ws[k - 1], steps[k - 1], ws[k], f, c, m, timed, steps[r].Fire?);
  }

  /** A fiber is not taken off the condition by a step that leaves it there, or that finds it off. */
  lemma NotLeavingCond(ws: seq<World>, steps: seq<Step>, n: nat, f: FiberId, c: CondId, m: MutexId, timed: bool)
    requires n + 1 < |ws|
    requires OnCond(ws[n + 1].Ctl(f), c, m, timed) || exists expired :: OffCond(ws[n].Ctl(f), c, m, timed, expired)
    ensures !LeavesCondAt(ws, steps, n, f)
  {
  }

  /** A wait that returns was taken off the condition at exactly one step before, and returns as owner of
      the mutex, in no queue, with -ETIMEDOUT exactly if that step was its timer callback. */
  lemma WaitHasOneOutcome(
    ws: seq<World>, steps: seq<Step>, i: nat, j: nat, f: FiberId, c: CondId, m: MutexId, timed: bool)
    requires Safety.CourteousRun(ws, steps) && |ws| == |steps| + 1
    requires StopsUntil(ws, i, j, f) && OnCond(ws[i].Ctl(f), c, m, timed)
    ensures exists r ::
              && i <= r < j && LeavesCondAt(ws, steps, r, f)
              && (forall n :: i <= n < j && n != r ==> !LeavesCondAt(ws, steps, n, f))
              && ws[j].Ret(f) == (if steps[r].Fire? then RetTimedOut else RetOk)
    ensures ws[j].Owns(f, m) && ws[j].mem.M(m).lockCount >= 1
    ensures f !in ws[j].mem.timerQueue && forall q: QueueId :: f !in ws[j].mem.Queue(q)
  {
    hide Safety.CourteousRun, Inv, Next, LeavesCond;
    var r := WaitPath(ws, steps, i, j - 1, f, c, m, timed);
    StepAt(ws, steps, j - 1);
    if OnCond(ws[j - 1].Ctl(f), c, m, timed) {
      WaitStep(ws[j - 1], steps[j - 1], ws[j], f, c, m, timed);
    } else {
      NotLeavingCond(ws, steps, j - 1, f, c, m, timed);
      RelockStep(ws[j - 1], steps[j - 1], ws[j], f, c, m, timed, steps[r].Fire?);
    }
  }
}

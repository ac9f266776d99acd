/** Recursive locking over runs: how deep a fiber holds a mutex is the number of its acquisitions less the
    number of its unlocks, and what a wait on a condition gives back of it. */
module Nesting {
  import opened Memory
  import opened Machine
  import opened Invariant
  import Safety
  import Theorems
  import Calls
  import Returns
  import MutexLaws
  import Deadlines

  // ---- Acquisitions and unlocks -------------------------------------------------------------

  /** How often `f` acquires `m` from world `i` up to world `n`. */
  function Acquired(ws: seq<World>, steps: seq<Step>, f: FiberId, m: MutexId, i: nat, n: nat): nat
    requires i <= n <= |steps| < |ws|
  {
    if i == n then 0
    else
      Acquired(ws, steps, f, m, i, n - 1) + if MutexLaws.Acquires(ws[n - 1], steps[n - 1], ws[n], f, m) then 1 else 0
  }

  /** How often it unlocks it. */
  function Unlocked(steps: seq<Step>, f: FiberId, m: MutexId, i: nat, n: nat): nat
    requires i <= n <= |steps|
  {
    if i == n then 0 else Unlocked(steps, f, m, i, n - 1) + if steps[n - 1] == Step.Unlock(f, m) then 1 else 0
  }

  /** In the run, `f` does not wait on a condition with `m` from world `i` up to world `n`. */
  ghost predicate NoWait(ws: seq<World>, f: FiberId, m: MutexId, i: nat, n: nat) {
    forall k :: i <= k < n < |ws| ==> !Calls.InWait(ws[k].Ctl(f), m)
  }

  lemma NoWaitStep(w: World, s: Step, w': World, f: FiberId, m: MutexId)
    requires Inv(w) && Inv(w') && Next(w, s, w') && !Calls.InWait(w.Ctl(f), m)
    ensures
      MutexLaws.Depth(w', f, m) == MutexLaws.Depth(w, f, m)
        + (if MutexLaws.Acquires(w, s, w', f, m) then 1 else 0) - (if s == Step.Unlock(f, m) then 1 else 0)
  {
    hide Inv, Next;
    MutexLaws.DepthStep(w, s, w', f, m);
    if s == Step.Unlock(f, m) { UnlockIsNoAttempt(w, s, w', f, m); }
  }

  lemma UnlockIsNoAttempt(w: World, s: Step, w': World, f: FiberId, m: MutexId)
    requires s == Step.Unlock(f, m)
    ensures !MutexLaws.Acquires(w, s, w', f, m)
  {
  }

  /** In every run, whoever else locks, waits, expires or is woken in between: while `f` does not wait on a
      condition with `m`, it holds `m` as deep as before, plus its acquisitions, less its unlocks. */
  lemma {:induction false} DepthIsBalance(
    ws: seq<World>, steps: seq<Step>, f: FiberId, m: MutexId, i: nat, n: nat)
    requires Safety.CourteousRun(ws, steps) && i <= n <= |steps| && NoWait(ws, f, m, i, n)
    ensures |ws| == |steps| + 1
    ensures
      MutexLaws.Depth(ws[n], f, m)
      == MutexLaws.Depth(ws[i], f, m) + Acquired(ws, steps, f, m, i, n) - Unlocked(steps, f, m, i, n)
  {
    hide Inv, Next, Init, Courteous, MutexLaws.Depth, MutexLaws.Acquires;
    if i < n {
      DepthIsBalance(ws, steps, f, m, i, n - 1);
      Returns.StepAt(ws, steps, n - 1);
      NoWaitStep(ws[n - 1], steps[n - 1], ws[n], f, m);
    }
  }

  /** From a mutex that `f` does not hold: after `k` acquisitions and fewer unlocks it owns the mutex at the
      depth of the difference; and an unlock goes on to release it exactly if it is the one that makes them
      equal, and otherwise returns at once to the owner. */
  lemma NestedUnlocks(ws: seq<World>, steps: seq<Step>, f: FiberId, m: MutexId, i: nat, n: nat)
    requires Safety.CourteousRun(ws, steps) && i <= n <= |steps| < |ws| && NoWait(ws, f, m, i, n)
    requires !ws[i].Owns(f, m)
    ensures
      var locks, unlocks := Acquired(ws, steps, f, m, i, n), Unlocked(steps, f, m, i, n);
      && unlocks <= locks
      && (unlocks < locks ==> ws[n].Owns(f, m) && ws[n].mem.M(m).lockCount == locks - unlocks)
      && (n < |steps| && steps[n] == Step.Unlock(f, m) ==>
            && unlocks < locks
            && ws[n + 1].Ctl(f) == if unlocks + 1 == locks then Unlocking(m, false) else Running)
  {
    hide Inv, Next, Init, Courteous, Safety.CourteousRun;
    DepthIsBalance(ws, steps, f, m, i, n);
    Safety.RunInv(ws, steps, n);
    MutexPart(ws[n], m);
    if n < |steps| && steps[n] == Step.Unlock(f, m) {
      Returns.StepAt(ws, steps, n);
      UnlocksOwn(ws[n], f, m, ws[n + 1]);
      MutexLaws.UnlockExactly(ws[n], f, m, ws[n + 1]);
    }
  }

  lemma UnlocksOwn(w: World, f: FiberId, m: MutexId, w': World)
    requires Next(w, Step.Unlock(f, m), w')
    ensures w.Owns(f, m)
  {
  }

  // ---- What a wait gives back ---------------------------------------------------------------

  /** A wait saves the mutex and how deep it was held. */
  lemma WaitSaves(w: World, s: Step, w': World)
    requires Next(w, s, w') && (s.CondWait? || s.CondTimedwait?)
    ensures w.Owns(s.f, s.m) && w'.mem.C(s.c) == w.mem.C(s.c) + [s.f]
    ensures w'.Ctl(s.f) == Waiting(s.c, s.m, s.CondTimedwait?, Pushed, false)
    ensures w'.mem.F(s.f).condMutex == Some(s.m) && w'.mem.F(s.f).lockCount == w.mem.M(s.m).lockCount
    ensures w'.mem.mutexes == w.mem.mutexes
  {
  }

  /** What a fiber off the condition holds: the depth `d` that it saved if it found the mutex free, and 1
      if it has been handed over. */
  predicate Regained(w: World, f: FiberId, m: MutexId, d: int, found: bool) {
    && (w.Ctl(f).Runnable? ==> MutexLaws.Depth(w, f, m) == if found then d else 1)
    && (w.Ctl(f).Locking? ==> !found)
  }

  lemma LeavesWith(w: World, s: Step, w': World, f: FiberId, c: CondId, m: MutexId, timed: bool)
    requires Returns.OnCond(w.Ctl(f), c, m, timed) && Returns.LeavesCond(w, s, w', f)
    ensures Regained(w', f, m, w.mem.F(f).lockCount, w.mem.M(m).owner == None)
    ensures exists expired :: Returns.OffCond(w'.Ctl(f), c, m, timed, expired)
  {
    assert Returns.OffCond(w'.Ctl(f), c, m, timed, s.Fire?);
  }

  lemma OffStep(
    w: World, s: Step, w': World, f: FiberId, c: CondId, m: MutexId, timed: bool, expired: bool, d: int, found: bool)
    requires Inv(w) && Inv(w') && Next(w, s, w') && Returns.OffCond(w.Ctl(f), c, m, timed, expired)
    requires Regained(w, f, m, d, found)
    ensures w'.Ctl(f) != Running ==> Returns.OffCond(w'.Ctl(f), c, m, timed, expired) && Regained(w', f, m, d, found)
    ensures w'.Ctl(f) == Running ==> MutexLaws.Depth(w', f, m) == if found then d else 1
  {
    hide Inv, Next;
    Returns.RelockStep(w, s, w', f, c, m, timed, expired);
    MutexLaws.DepthStep(w, s, w', f, m);
    OffActs(w, s, w', f, c, m, timed, expired);
  }

  /** A fiber off the condition makes no call of its own; it is dispatched when it is runnable. */
  lemma OffActs(w: World, s: Step, w': World, f: FiberId, c: CondId, m: MutexId, timed: bool, expired: bool)
    requires Inv(w) && Next(w, s, w') && Returns.OffCond(w.Ctl(f), c, m, timed, expired)
    ensures !MutexLaws.Acquires(w, s, w', f, m) && s != Step.Unlock(f, m)
    ensures w'.Ctl(f) == Running ==> w.Ctl(f).Runnable?
    ensures w.Ctl(f).Runnable? ==> w'.Ctl(f) == w.Ctl(f) || w'.Ctl(f) == Running
  {
    hide Inv, Next;
    if w.Ctl(f).Locking? {
      Calls.LockingGoesOn(w, s, w', f);
    } else {
      Calls.RunnableGoesOn(w, s, w', f);
      if w'.Ctl(f) != w.Ctl(f) { Returns.Dispatched(w, s, w', f); }
    }
    StoppedCallsNothing(w, s, w', f, m);
  }

  lemma StoppedCallsNothing(w: World, s: Step, w': World, f: FiberId, m: MutexId)
    requires Next(w, s, w') && (w.Ctl(f).Locking? || w.Ctl(f).Runnable?)
    ensures !Theorems.AsksFor(w, s, f, m) && s != Step.Unlock(f, m)
  {
    hide Apply;
  }

  lemma OnStep(w: World, s: Step, w': World, f: FiberId, c: CondId, m: MutexId, timed: bool, d: int)
    requires Inv(w) && Inv(w') && Next(w, s, w') && Returns.OnCond(w.Ctl(f), c, m, timed) && w.mem.F(f).lockCount == d
    ensures
      || (Returns.OnCond(w'.Ctl(f), c, m, timed) && w'.mem.F(f).lockCount == d)
      || (Returns.LeavesCond(w, s, w', f) && Regained(w', f, m, d, w.mem.M(m).owner == None)
          && Returns.OffCond(w'.Ctl(f), c, m, timed, s.Fire?))
  {
    hide Inv, Next, Regained, Returns.LeavesCond;
    Returns.WaitStep(w, s, w', f, c, m, timed);
    if Returns.OnCond(w'.Ctl(f), c, m, timed) {
      Deadlines.FieldsStay(w, s, w', f);
    } else {
      LeavesWith(w, s, w', f, c, m, timed);
    }
  }

  predicate WaitsOn(s: Step, f: FiberId, c: CondId, m: MutexId) {
    (s.CondWait? || s.CondTimedwait?) && s.f == f && s.c == c && s.m == m
  }

  /** From the call of a wait: the fiber is on the condition with the depth saved, or it was taken off at
      some step, and it mattered whether the mutex was free then. */
  lemma {:induction false} WaitDepthPath(
    ws: seq<World>, steps: seq<Step>, i: nat, n: nat, f: FiberId, c: CondId, m: MutexId) returns (r: nat)
    requires Safety.CourteousRun(ws, steps) && i < n < |ws| == |steps| + 1 && WaitsOn(steps[i], f, c, m)
    requires forall k :: i < k <= n ==> ws[k].Ctl(f) != Running
    ensures
      var d, timed := ws[i].mem.M(m).lockCount, steps[i].CondTimedwait?;
      || (Returns.OnCond(ws[n].Ctl(f), c, m, timed) && ws[n].mem.F(f).lockCount == d)
      || (i < r < n && Returns.LeavesCondAt(ws, steps, r, f)
          && Returns.OffCond(ws[n].Ctl(f), c, m, timed, steps[r].Fire?)
          && Regained(ws[n], f, m, d, ws[r].mem.M(m).owner == None))
  {
    hide Inv, Next, Init, Courteous, Safety.CourteousRun, Regained, Returns.LeavesCond;
    var w, s, w' := ws[n - 1], steps[n - 1], ws[n];
    var d, timed := ws[i].mem.M(m).lockCount, steps[i].CondTimedwait?;
    Returns.StepAt(ws, steps, n - 1);
    if n == i + 1 {
      WaitSaves(w, s, w');
      return 0;
    }
    r := WaitDepthPath(ws, steps, i, n - 1, f, c, m);
    if Returns.OnCond(w.Ctl(f), c, m, timed) {
      OnStep(w, s, w', f, c, m, timed, d);
      return n - 1;
    }
    OffStep(w, s, w', f, c, m, timed, steps[r].Fire?, d, ws[r].mem.M(m).owner == None);
  }

  /** Over any run, a wait returns to an owner that holds the mutex as deep as before exactly if that was
      one level, or the mutex was free when the fiber was taken off the condition; otherwise one level is
      left of it. */
  lemma WaitDepth(ws: seq<World>, steps: seq<Step>, i: nat, j: nat, f: FiberId, c: CondId, m: MutexId)
    requires Safety.CourteousRun(ws, steps) && i + 1 < j < |ws| == |steps| + 1 && WaitsOn(steps[i], f, c, m)
    requires Returns.StopsUntil(ws, i + 1, j, f)
    ensures ws[j].Owns(f, m)
    ensures exists r ::
              && i < r < j && Returns.LeavesCondAt(ws, steps, r, f)
              && var d, d' := ws[i].mem.M(m).lockCount, ws[j].mem.M(m).lockCount;
                 && d' == (if ws[r].mem.M(m).owner == None then d else 1)
                 && (d' == d <==> d == 1 || ws[r].mem.M(m).owner == None)
  {
    hide Inv, Next, Init, Courteous, Safety.CourteousRun, Regained, Returns.LeavesCond;
    var r := WaitDepthPath(ws, steps, i, j - 1, f, c, m);
    var timed := steps[i].CondTimedwait?;
    Returns.StepAt(ws, steps, j - 1);
    if Returns.OnCond(ws[j - 1].Ctl(f), c, m, timed) {
      OnStep(ws[j - 1], steps[j - 1], ws[j], f, c, m, timed, ws[i].mem.M(m).lockCount);
    } else {
      Returns.RelockStep(ws[j - 1], steps[j - 1], ws[j], f, c, m, timed, steps[r].Fire?);
      OffStep(ws[j - 1], steps[j - 1], ws[j], f, c, m, timed, steps[r].Fire?,
              ws[i].mem.M(m).lockCount, ws[r].mem.M(m).owner == None);
    }
  }
}

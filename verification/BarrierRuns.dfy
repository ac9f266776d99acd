/** The barrier's invariant through the steps inside the runtime, and its promises over runs. */
module BarrierRuns {
  import opened Memory
  import opened Machine
  import opened Invariant
  import opened Barrier
  import Safety
  import Outcomes
  import PreserveMutex
  import PreserveCond
  import PreserveIo
  import PreserveTimer

  // ---- Releasing the mutex ------------------------------------------------------------------

  lemma UnlockFastEffect(s: State, f: FiberId, s': State)
    requires Private(s) && f in s.team && Moves(s, Continue(UnlockFast(f)), s')
    requires ReleasingMutex(s.Ctl(f)) == Some((s.m, false)) && s.Owns(f)
    ensures TeamKept(s, s', f, f)
    ensures s'.Ctl(f) == (if s.Q() == [] then AfterUnlock(s.Ctl(f)) else AfterUnlockSawWaiters(s.Ctl(f)))
    ensures s'.w.mem.M(s.m) == (if s.Q() == [] then s.w.mem.M(s.m).(owner := None) else s.w.mem.M(s.m))
    ensures s'.w.mem.F(f) == s.w.mem.F(f)
  {
  }

  lemma UnlockFastSelf(s: State, f: FiberId, s': State)
    requires Moves(s, Continue(UnlockFast(f)), s') && PositionOk(s, f) && ProgressOk(s, f)
    requires ReleasingMutex(s.Ctl(f)) == Some((s.m, false))
    requires s'.Ctl(f) == (if s.Q() == [] then AfterUnlock(s.Ctl(f)) else AfterUnlockSawWaiters(s.Ctl(f)))
    requires s.Q() == [] ==> !s'.Owns(f)
    requires s'.w.mem.F(f) == s.w.mem.F(f)
    ensures PositionOk(s', f) && ProgressOk(s', f)
  {
  }

  /** A member that releases a mutex releases the barrier's, and is not the one that broadcasts. */
  lemma ReleaserFacts(s: State, f: FiberId)
    requires Good(s) && f in s.Busy() && ReleasingMutex(s.Ctl(f)).Some?
    ensures ReleasingMutex(s.Ctl(f)).value.0 == s.m && s.Owns(f) && s.w.mem.M(s.m).lockCount == 0
    ensures s.last != Some(f)
  {
    TeamPart(s, f);
    FiberPart(s.w, f);
    hide Inv;
  }

  lemma UnlockFastKeeps(s: State, f: FiberId, s': State)
    requires Good(s) && Moves(s, Continue(UnlockFast(f)), s')
    ensures Good(s')
  {
    ReleasingStep(s.w, f, s'.w);
    hide Inv, Next, Good, PositionOk, ProgressOk, NoneReleased, NoneGathered, LeaversFirst;
    RuntimePart(s);
    TeamPart(s, f);
    ReleaserFacts(s, f);
    Safety.NextKeeps(s.w, UnlockFast(f), s'.w);
    UnlockFastEffect(s, f, s');
    ContinueLedger(s, UnlockFast(f), s', f);
    UnlockFastSelf(s, f, s');
    SameQueue(s, s', f);
    Reassemble(s, s', f, f);
  }

  lemma ReleasingStep(w: World, f: FiberId, w': World)
    ensures Next(w, UnlockFast(f), w') ==> ReleasingMutex(w.Ctl(f)).Some? && !ReleasingMutex(w.Ctl(f)).value.1
    ensures Next(w, UnlockHandoff(f), w') ==> ReleasingMutex(w.Ctl(f)).Some? && ReleasingMutex(w.Ctl(f)).value.1
  {
  }

  lemma CondReleaseEffect(s: State, f: FiberId, s': State)
    requires Private(s) && f in s.team && Moves(s, Continue(CondRelease(f)), s') && s.Ctl(f).Waiting?
    requires s.Ctl(f).mutex == s.m
    ensures TeamKept(s, s', f, f)
    ensures s'.Ctl(f) == s.Ctl(f).(release := Releasing)
    ensures s'.w.mem.M(s.m) == s.w.mem.M(s.m).(lockCount := 0) && s'.w.mem.F(f) == s.w.mem.F(f)
  {
  }

  lemma WaiterSelf(s: State, f: FiberId, s': State)
    requires SameLedger(s, s', f) && s'.pc == s.pc && s'.exits == s.exits && s'.last == s.last && s'.m == s.m
    requires s'.c == s.c
    requires PositionOk(s, f) && ProgressOk(s, f) && s.Pc(f) != Outside
    requires s.Ctl(f).Waiting? && s'.Ctl(f).Waiting? && s'.Ctl(f) == s.Ctl(f).(release := s'.Ctl(f).release)
    requires s'.w.mem.F(f) == s.w.mem.F(f)
    ensures PositionOk(s', f) && ProgressOk(s', f)
  {
  }

  lemma WaiterFacts(s: State, f: FiberId)
    requires PositionOk(s, f) && s.Pc(f) != Outside && s.Ctl(f).Waiting?
    ensures s.Ctl(f).mutex == s.m && s.Ctl(f).cond == s.c && s.Pc(f) == Leaving
  {
  }

  lemma CondReleaseKeeps(s: State, f: FiberId, s': State)
    requires Good(s) && Moves(s, Continue(CondRelease(f)), s')
    ensures Good(s')
  {
    assert s.Ctl(f).Waiting?;
    hide Inv, Next, Good, PositionOk, ProgressOk, NoneReleased, NoneGathered, LeaversFirst;
    RuntimePart(s);
    TeamPart(s, f);
    LastPart(s);
    WaiterFacts(s, f);
    Safety.NextKeeps(s.w, CondRelease(f), s'.w);
    CondReleaseEffect(s, f, s');
    ContinueLedger(s, CondRelease(f), s', f);
    WaiterSelf(s, f, s');
    RunnableNotLast(s, f);
    SameQueue(s, s', f);
    Reassemble(s, s', f, f);
  }

  // ---- The hand-off: the first waiter is a leaver, as long as there is one -------------------

  lemma HandoffControl(s: State, f: FiberId, g: FiberId, s': State)
    requires Moves(s, Continue(UnlockHandoff(f)), s') && ReleasingMutex(s.Ctl(f)) == Some((s.m, true))
    requires s.Q() != [] && g == s.Q()[0] && g != f
    ensures s'.Ctl(f) == AfterUnlock(s.Ctl(f)) && s'.Ctl(g) == Granted(s.Ctl(g))
    ensures s'.w.mem.F(f) == s.w.mem.F(f)
    ensures PreserveMutex.HandsTo(s.w, f, s.m, g, s'.w) && s'.team == s.team && s'.m == s.m && s'.c == s.c
  {
  }

  /** What a step leaves untouched in the runtime, it leaves untouched for the barrier. */
  lemma UntouchedTeam(s: State, s': State, f: FiberId, g: FiberId)
    requires Private(s) && s'.team == s.team && s'.m == s.m && s'.c == s.c && f in s.team && g in s.team
    requires forall x: FiberId :: x != f && x != g ==>
        s'.Ctl(x) == s.Ctl(x) && s'.w.mem.F(x).lockCount == s.w.mem.F(x).lockCount
    requires forall x: FiberId :: x != f && x != g ==> (s'.Owns(x) <==> s.Owns(x))
    ensures TeamKept(s, s', f, g)
  {
    forall x: FiberId | x !in s.team ensures !Mentions(s'.w.Ctl(x), s.m, s.c) {
      assert s'.Ctl(x) == s.Ctl(x);
    }
    forall h | h in s.team && h != f && h != g
      ensures s'.Ctl(h) == s.Ctl(h) && (s'.Owns(h) <==> s.Owns(h)) && s'.w.mem.F(h).lockCount == s.w.mem.F(h).lockCount
    {
      assert s'.Owns(h) <==> s.Owns(h);
    }
  }

  lemma HandoffEffect(s: State, f: FiberId, g: FiberId, s': State)
    requires Inv(s.w) && Private(s) && f in s.team && Moves(s, Continue(UnlockHandoff(f)), s')
    requires ReleasingMutex(s.Ctl(f)) == Some((s.m, true)) && s.Q() != [] && g == s.Q()[0] && g in s.team
    requires s.Owns(f)
    ensures g != f && TeamKept(s, s', f, g)
    ensures s'.Ctl(f) == AfterUnlock(s.Ctl(f)) && s'.Ctl(g) == Granted(s.Ctl(g))
    ensures s'.w.mem.M(s.m) == s.w.mem.M(s.m).(owner := Some(g), lockQueue := s.Q()[1..], lockCount := 1)
    ensures s'.w.mem.F(f) == s.w.mem.F(f)
  {
    hide Inv, Places, Timers, FiberOk, MutexOk, Next, Moves, PreserveMutex.HandsTo;
    FiberPart(s.w, f);
    MutexPart(s.w, s.m);
    QueueParts(s.w);
    PreserveMutex.HandoffHead(s.w, f, s.m, g);
    HandoffControl(s, f, g, s');
    PreserveMutex.HandoffMutex(s.w, f, s.m, g, s'.w);
    PreserveMutex.HandoffOthers(s.w, f, s.m, g, s'.w);
    HandoffPositions(s.w, f, s.m, g, s'.w);
    UntouchedTeam(s, s', f, g);
  }

  lemma HandoffPositions(w: World, f: FiberId, m: MutexId, g: FiberId, w': World)
    requires PreserveMutex.HandsTo(w, f, m, g, w') && f != g
    ensures w'.Ctl(f) == AfterUnlock(w.Ctl(f)) && w'.Ctl(g) == Granted(w.Ctl(g))
    ensures forall x: FiberId :: x != f && x != g ==> w'.Ctl(x) == w.Ctl(x) && w'.mem.F(x) == w.mem.F(x)
    ensures w'.mem.conds == w.mem.conds
  {
  }

  lemma ReleaserAfter(s: State, f: FiberId, s': State)
    requires Moves(s, Continue(UnlockHandoff(f)), s') && PositionOk(s, f) && ProgressOk(s, f)
    requires ReleasingMutex(s.Ctl(f)).Some? && s'.Ctl(f) == AfterUnlock(s.Ctl(f)) && !s'.Owns(f)
    requires s'.w.mem.F(f) == s.w.mem.F(f)
    ensures PositionOk(s', f) && ProgressOk(s', f)
  {
  }

  lemma GrantedAfter(s: State, f: FiberId, g: FiberId, s': State)
    requires Moves(s, Continue(UnlockHandoff(f)), s') && PositionOk(s, g) && ProgressOk(s, g)
    requires s.Pc(g) != Outside && s.Ctl(g).Locking? && s'.Ctl(g) == Granted(s.Ctl(g))
    requires !s.Arrived(g) ==> NoneReleased(s')
    ensures PositionOk(s', g) && ProgressOk(s', g)
  {
  }

  /** Between two owners: if the head of the queue comes in, nobody in the team is still leaving. */
  lemma NobodyLeavesBehind(s: State, f: FiberId, g: FiberId)
    requires Good(s) && f in s.Busy() && ReleasingMutex(s.Ctl(f)).Some?
    requires s.Q() != [] && g == s.Q()[0] && !s.Arrived(g)
    ensures NoneReleased(s)
  {
    ReleaserFacts(s, f);
    forall h | h in s.team ensures !s.Released(h) {
      if s.Released(h) { LeaverIsQueued(s, f, h); QueueAllComeIn(s, h); }
    }
  }

  lemma LeaverIsQueued(s: State, f: FiberId, h: FiberId)
    requires Good(s) && f in s.team && s.Owns(f) && ReleasingMutex(s.Ctl(f)).Some?
    requires h in s.team && s.Released(h)
    ensures h in s.Q()
  {
    TeamPart(s, f);
    TeamPart(s, h);
    FiberPart(s.w, h);
    Outcomes.QueueMembership(s.w, h, LockQueue(s.m));
    if s.last.Some? { TeamPart(s, s.last.value); }
    hide Inv;
  }

  lemma QueueAllComeIn(s: State, h: FiberId)
    requires Good(s) && h in s.Q() && !s.Arrived(s.Q()[0])
    ensures !s.Arrived(h)
  {
    var q := s.Q();
    var i :| 0 <= i < |q| && q[i] == h;
    assert LeaversFirst(s);
    hide Inv, Good;
    if i > 0 { assert !s.Arrived(q[0]) && !s.Arrived(q[i]); }
  }

  lemma HandoffToHeadKeeps(s: State, f: FiberId, g: FiberId, s': State)
    requires Good(s) && Moves(s, Continue(UnlockHandoff(f)), s') && s.Q() != [] && g == s.Q()[0]
    ensures Good(s')
  {
    ReleasingStep(s.w, f, s'.w);
    hide Inv, Next, Good, PositionOk, ProgressOk, NoneReleased, NoneGathered, LeaversFirst;
    RuntimePart(s);
    ReleaserFacts(s, f);
    QueueInTeam(s, g);
    TeamPart(s, f);
    TeamPart(s, g);
    LastPart(s);
    Safety.NextKeeps(s.w, UnlockHandoff(f), s'.w);
    HandoffEffect(s, f, g, s');
    ContinueLedger(s, UnlockHandoff(f), s', f);
    LedgerFacts(s, s', f);
    if !s.Arrived(g) { NobodyLeavesBehind(s, f, g); }
    ReleaserAfter(s, f, s');
    GrantedAfter(s, f, g, s');
    RunnableNotLast(s, g);
    ShorterQueue(s, s', f);
    Reassemble(s, s', f, g);
  }

  lemma HandoffToNobodyEffect(s: State, f: FiberId, s': State)
    requires Private(s) && f in s.team && Moves(s, Continue(UnlockHandoff(f)), s')
    requires ReleasingMutex(s.Ctl(f)) == Some((s.m, true)) && s.Owns(f) && s.Q() == []
    ensures TeamKept(s, s', f, f)
    ensures s'.Ctl(f) == AfterUnlock(s.Ctl(f)) && s'.w.mem.M(s.m) == s.w.mem.M(s.m).(owner := None)
    ensures s'.w.mem.F(f) == s.w.mem.F(f)
  {
  }

  lemma HandoffToNobodyKeeps(s: State, f: FiberId, s': State)
    requires Good(s) && Moves(s, Continue(UnlockHandoff(f)), s') && s.Q() == []
    ensures Good(s')
  {
    ReleasingStep(s.w, f, s'.w);
    hide Inv, Next, Good, PositionOk, ProgressOk, NoneReleased, NoneGathered, LeaversFirst;
    RuntimePart(s);
    ReleaserFacts(s, f);
    TeamPart(s, f);
    Safety.NextKeeps(s.w, UnlockHandoff(f), s'.w);
    HandoffToNobodyEffect(s, f, s');
    ContinueLedger(s, UnlockHandoff(f), s', f);
    ReleaserAfter(s, f, s');
    SameQueue(s, s', f);
    Reassemble(s, s', f, f);
  }

  // ---- The broadcast: the waiters join the lock queue while the whole team is inside ---------

  /** The signaller of the barrier is the fiber that arrived last, and owns the mutex. */
  lemma SignallerFacts(s: State, f: FiberId)
    requires Good(s) && f in s.Busy() && s.Ctl(f).SignalLoop?
    ensures s.Pc(f) == Leaving && s.Ctl(f).cond == s.c && s.Ctl(f).nb == 0 && s.Owns(f)
    ensures s.last == Some(f) && (forall g :: g in s.team ==> s.Arrived(g)) && NoneGathered(s)
  {
    TeamPart(s, f);
    assert s.Released(f);
    hide Inv;
    forall g | g in s.team ensures s.Arrived(g) { assert g in s.Inside(); }
  }

  lemma SignalledFacts(s: State, f: FiberId, x: FiberId)
    requires Good(s) && f in s.team && s.Ctl(f).SignalLoop? && s.Ctl(f).cond == s.c
    requires s.w.mem.C(s.c) != [] && x == s.w.mem.C(s.c)[0]
    ensures x in s.team && x != f && s.Ctl(x).Waiting? && s.Ctl(x) == Waiting(s.c, s.m, false, s.Ctl(x).release, false)
  {
    QueueParts(s.w);
    PreserveCond.SignalHead(s.w, f, s.c, x);
    assert x !in s.team ==> !Mentions(s.w.Ctl(x), s.m, s.c);
    assert x in s.team ==> PositionOk(s, x);
    hide Inv, Places, Timers;
  }

  /** The signal step in the terms of the runtime's proof. */
  lemma SignalOneRuntime(s: State, f: FiberId, x: FiberId, s': State)
    requires Inv(s.w) && Moves(s, Continue(Step.SignalOne(f)), s')
    requires s.Ctl(f).SignalLoop? && s.Ctl(f).cond == s.c
    requires s.w.mem.C(s.c) != [] && x == s.w.mem.C(s.c)[0] && x != f
    requires s.Ctl(x).Waiting? && s.Ctl(x).cond == s.c && !s.Ctl(x).dropped
    ensures PreserveCond.Signals(s.w, f, s.c, x, s'.w) && PreserveCond.WaitsAt(s.w, f, s.c, x)
    ensures s'.team == s.team && s'.m == s.m && s'.c == s.c
    ensures forall h: FiberId :: h != x ==> s'.w.mem.F(h) == s.w.mem.F(h)
  {
    hide Inv, FiberOk;
    FiberPart(s.w, x);
    SignalOneLeaves(s.w, f, s.c, x, s'.w);
  }

  lemma SignalOneLeaves(w: World, f: FiberId, c: CondId, x: FiberId, w': World)
    requires PreserveCond.Signals(w, f, c, x, w')
    ensures forall h: FiberId :: h != x ==> w'.mem.F(h) == w.mem.F(h)
  {
  }

  lemma SignalOneEffect(s: State, f: FiberId, x: FiberId, s': State)
    requires Inv(s.w) && Private(s) && f in s.team && Moves(s, Continue(Step.SignalOne(f)), s')
    requires s.Ctl(f).SignalLoop? && s.Ctl(f).cond == s.c && s.Owns(f)
    requires s.w.mem.C(s.c) != [] && x == s.w.mem.C(s.c)[0] && x in s.team && x != f
    requires s.Ctl(x).Waiting? && s.Ctl(x) == Waiting(s.c, s.m, false, s.Ctl(x).release, false)
    ensures TeamKept(s, s', f, x)
    ensures s'.Ctl(f) == s.Ctl(f).(woken := s.Ctl(f).woken + 1)
    ensures s'.Ctl(x) == Locking(s.m, ByCond(s.c, false, false))
    ensures s'.w.mem.M(s.m) == s.w.mem.M(s.m).(lockQueue := s.Q() + [x])
  {
    SignalOneRuntime(s, f, x, s');
    hide Inv, Next, Moves, FiberOk, PreserveCond.Signals, PreserveCond.WaitsAt;
    PreserveCond.SignalOneMemory(s.w, f, s.c, x, s'.w);
    PreserveCond.SignalOneControl(s.w, f, s.c, x, s'.w);
    UntouchedTeam(s, s', f, x);
  }

  lemma SignallerAfter(s: State, f: FiberId, s': State)
    requires Moves(s, Continue(Step.SignalOne(f)), s') && PositionOk(s, f) && ProgressOk(s, f)
    requires s.Ctl(f).SignalLoop? && s'.Ctl(f) == s.Ctl(f).(woken := s.Ctl(f).woken + 1)
    requires s.Owns(f) && s'.Owns(f)
    ensures PositionOk(s', f) && ProgressOk(s', f) && s'.Broadcasting(f)
  {
  }

  lemma SignalledAfter(s: State, f: FiberId, x: FiberId, s': State)
    requires Moves(s, Continue(Step.SignalOne(f)), s') && PositionOk(s, x) && ProgressOk(s, x)
    requires s.Ctl(x).Waiting? && s'.Ctl(x) == Locking(s.m, ByCond(s.c, false, false))
    requires x in s.team && NoneGathered(s)
    ensures PositionOk(s', x) && ProgressOk(s', x)
  {
    assert !s.Gathered(x);
  }

  lemma SignalOneKeeps(s: State, f: FiberId, s': State)
    requires Good(s) && Moves(s, Continue(Step.SignalOne(f)), s')
    ensures Good(s')
  {
    assert s.Ctl(f).SignalLoop? && s.w.mem.C(s.Ctl(f).cond) != [];
    hide Inv, Next, Good, PositionOk, ProgressOk, NoneReleased, NoneGathered, LeaversFirst;
    RuntimePart(s);
    SignallerFacts(s, f);
    var x := s.w.mem.C(s.c)[0];
    SignalledFacts(s, f, x);
    TeamPart(s, f);
    TeamPart(s, x);
    Safety.NextKeeps(s.w, Step.SignalOne(f), s'.w);
    SignalOneEffect(s, f, x, s');
    ContinueLedger(s, Step.SignalOne(f), s', f);
    SignallerAfter(s, f, s');
    SignalledAfter(s, f, x, s');
    LongerQueue(s, s', f, x);
    Reassemble(s, s', f, x);
  }

  lemma SignalEndEffect(s: State, f: FiberId, s': State)
    requires Private(s) && f in s.team && Moves(s, Continue(SignalEnd(f)), s')
    requires s.Ctl(f).SignalLoop? && s.Ctl(f).cond == s.c && s.Ctl(f).nb == 0
    ensures TeamKept(s, s', f, f)
    ensures s'.Ctl(f) == Running && s'.w.mem.mutexes == s.w.mem.mutexes && s.w.mem.C(s.c) == []
  {
  }

  /** When the broadcast is over, nobody in the team waits on the condition. */
  lemma NobodyWaits(s: State, g: FiberId)
    requires Good(s) && g in s.Busy() && s.w.mem.C(s.c) == []
    ensures !s.Ctl(g).Waiting?
  {
    TeamPart(s, g);
    Outcomes.QueueMembership(s.w, g, WaitQueue(s.c));
    hide Inv;
  }

  lemma SignalEndMember(s: State, f: FiberId, s': State, g: FiberId)
    requires Moves(s, Continue(SignalEnd(f)), s') && TeamKept(s, s', f, f) && SameLedger(s, s', f)
    requires f in s.team && s.Ctl(f).SignalLoop? && s.Pc(f) == Leaving && s.last == Some(f)
    requires s'.Ctl(f) == Running && s'.w.mem.mutexes == s.w.mem.mutexes && s.Owns(f)
    requires g in s.team && PositionOk(s, g) && ProgressOk(s, g) && !s.Ctl(g).Waiting? && s.Arrived(g)
    requires NoneGathered(s)
    ensures PositionOk(s', g) && ProgressOk(s', g)
  {
    assert !s.Gathered(g);
  }

  lemma SignalEndKeeps(s: State, f: FiberId, s': State)
    requires Good(s) && Moves(s, Continue(SignalEnd(f)), s')
    ensures Good(s')
  {
    hide Inv, Good, PositionOk, ProgressOk, NoneReleased, NoneGathered, LeaversFirst, Private, TeamKept, SameLedger;
    hide CountOk;
    assert s.Ctl(f).SignalLoop?;
    hide Next;
    RuntimePart(s);
    SignallerFacts(s, f);
    CountPart(s);
    Safety.NextKeeps(s.w, SignalEnd(f), s'.w);
    SignalEndEffect(s, f, s');
    ContinueLedger(s, SignalEnd(f), s', f);
    LedgerFacts(s, s', f);
    forall g | g in s.team ensures PositionOk(s', g) && ProgressOk(s', g) {
      TeamPart(s, g);
      NobodyWaits(s, g);
      SignalEndMember(s, f, s', g);
    }
    SameQueue(s, s', f);
    SignalEndAssemble(s, f, s');
  }

  lemma SignalEndAssemble(s: State, f: FiberId, s': State)
    requires Moves(s, Continue(SignalEnd(f)), s') && Inv(s'.w) && Private(s) && TeamKept(s, s', f, f)
    requires s'.w.mem.mutexes == s.w.mem.mutexes
    requires TeamOk(s') && LeaversFirst(s') && NoneGathered(s') && CountOk(s')
    ensures Good(s')
  {
    hide Inv, PositionOk, ProgressOk, LeaversFirst, NoneGathered, NoneReleased, CountOk;
  }

  lemma ContinueKeeps(s: State, x: Step, s': State)
    requires Good(s) && Moves(s, Continue(x), s')
    ensures Good(s')
  {
    hide Good, Next;
    match x
    case Dispatch => DispatchKeeps(s, s');
    case UnlockFast(f) => UnlockFastKeeps(s, f, s');
    case UnlockHandoff(f) =>
      if s.Q() == [] { HandoffToNobodyKeeps(s, f, s'); } else { HandoffToHeadKeeps(s, f, s.Q()[0], s'); }
    case CondRelease(f) => CondReleaseKeeps(s, f, s');
    case SignalOne(f) => SignalOneKeeps(s, f, s');
    case SignalEnd(f) => SignalEndKeeps(s, f, s');
  }

  // ---- Everybody else -----------------------------------------------------------------------

  /** A foreign step touches neither the barrier's mutex and condition nor the team. */
  ghost predicate Aloof(w: World, w': World, team: set<FiberId>, m: MutexId, c: CondId) {
    && w'.mem.M(m) == w.mem.M(m) && w'.mem.C(c) == w.mem.C(c)
    && (forall f :: f in team ==> w'.Ctl(f) == w.Ctl(f) && w'.mem.F(f).lockCount == w.mem.F(f).lockCount)
    && (forall x: FiberId :: x !in team ==> !Mentions(w'.Ctl(x), m, c))
  }

  /** A member of the team is never in the timer queue, and waits for nothing but the barrier. */
  predicate TeamPosition(ctl: Control, m: MutexId, c: CondId) {
    && !InTimers(ctl) && !ctl.Polling?
    && (ctl.Locking? ==> ctl.mutex == m)
    && (ctl.Waiting? ==> ctl.mutex == m && ctl.cond == c)
  }

  /** What the barrier's invariant says about the runtime, for a step outside it. */
  ghost predicate Guarded(w: World, team: set<FiberId>, m: MutexId, c: CondId) {
    && Inv(w)
    && (forall x: FiberId :: x !in team ==> !Mentions(w.Ctl(x), m, c))
    && (forall f :: f in team ==> TeamPosition(w.Ctl(f), m, c))
    && (w.mem.M(m).owner.Some? ==> w.mem.M(m).owner.value in team)
  }

  lemma GuardedParts(w: World, team: set<FiberId>, m: MutexId, c: CondId, f: FiberId)
    requires Guarded(w, team, m, c)
    ensures Inv(w)
    ensures f !in team ==> !Mentions(w.Ctl(f), m, c)
    ensures f in team ==> TeamPosition(w.Ctl(f), m, c)
    ensures w.mem.M(m).owner.Some? ==> w.mem.M(m).owner.value in team
  {
  }

  /** A step that moves only `f` and `g`, outside the team. */
  lemma AloofStep(w: World, w': World, team: set<FiberId>, m: MutexId, c: CondId, f: FiberId, g: FiberId)
    requires Guarded(w, team, m, c) && f !in team && g !in team
    requires forall x: FiberId :: x != f && x != g ==> w'.Ctl(x) == w.Ctl(x) && w'.mem.F(x) == w.mem.F(x)
    requires !Mentions(w'.Ctl(f), m, c) && !Mentions(w'.Ctl(g), m, c)
    requires w'.mem.M(m) == w.mem.M(m) && w'.mem.C(c) == w.mem.C(c)
    ensures Aloof(w, w', team, m, c)
  {
    hide Inv;
  }

  lemma ActorLock(w: World, team: set<FiberId>, m: MutexId, c: CondId, s: Step, w': World)
    requires s.Lock? || s.Trylock? || s.Timedlock?
    requires Foreign(w, team, m, c, s) && Next(w, s, w') && !Mentions(w.Ctl(s.f), m, c)
    ensures !Mentions(w'.Ctl(s.f), m, c)
    ensures forall x: FiberId :: x != s.f ==> w'.Ctl(x) == w.Ctl(x) && w'.mem.F(x) == w.mem.F(x)
    ensures w'.mem.M(m) == w.mem.M(m) && w'.mem.C(c) == w.mem.C(c)
  {
  }

  lemma ActorUnlock(w: World, team: set<FiberId>, m: MutexId, c: CondId, s: Step, w': World)
    requires s.TimedlockSlow? || s.Unlock? || s.CondRelease?
    requires Foreign(w, team, m, c, s) && Next(w, s, w') && !Mentions(w.Ctl(s.f), m, c)
    ensures !Mentions(w'.Ctl(s.f), m, c)
    ensures forall x: FiberId :: x != s.f ==> w'.Ctl(x) == w.Ctl(x) && w'.mem.F(x) == w.mem.F(x)
    ensures w'.mem.M(m) == w.mem.M(m) && w'.mem.C(c) == w.mem.C(c)
  {
  }

  lemma ActorUnlockFast(w: World, team: set<FiberId>, m: MutexId, c: CondId, s: Step, w': World)
    requires s.UnlockFast?
    requires Foreign(w, team, m, c, s) && Next(w, s, w') && !Mentions(w.Ctl(s.f), m, c)
    ensures !Mentions(w'.Ctl(s.f), m, c)
    ensures forall x: FiberId :: x != s.f ==> w'.Ctl(x) == w.Ctl(x) && w'.mem.F(x) == w.mem.F(x)
    ensures w'.mem.M(m) == w.mem.M(m) && w'.mem.C(c) == w.mem.C(c)
  {
  }

  lemma ActorWait(w: World, team: set<FiberId>, m: MutexId, c: CondId, s: Step, w': World)
    requires s.CondWait? || s.CondTimedwait? || s.SignalBegin?
    requires Foreign(w, team, m, c, s) && Next(w, s, w') && !Mentions(w.Ctl(s.f), m, c)
    ensures !Mentions(w'.Ctl(s.f), m, c)
    ensures forall x: FiberId :: x != s.f ==> w'.Ctl(x) == w.Ctl(x) && w'.mem.F(x) == w.mem.F(x)
    ensures w'.mem.M(m) == w.mem.M(m) && w'.mem.C(c) == w.mem.C(c)
  {
  }

  lemma ActorWaitfor(w: World, team: set<FiberId>, m: MutexId, c: CondId, s: Step, w': World)
    requires s.Waitfor?
    requires Foreign(w, team, m, c, s) && Next(w, s, w') && !Mentions(w.Ctl(s.f), m, c)
    ensures !Mentions(w'.Ctl(s.f), m, c)
    ensures forall x: FiberId :: x != s.f ==> w'.Ctl(x) == w.Ctl(x) && w'.mem.F(x) == w.mem.F(x)
    ensures w'.mem.M(m) == w.mem.M(m) && w'.mem.C(c) == w.mem.C(c)
  {
  }

  lemma ActorOther(w: World, team: set<FiberId>, m: MutexId, c: CondId, s: Step, w': World)
    requires s.Spawn? || s.Usleep?
    requires Foreign(w, team, m, c, s) && Next(w, s, w') && !Mentions(w.Ctl(s.f), m, c)
    ensures !Mentions(w'.Ctl(s.f), m, c)
    ensures forall x: FiberId :: x != s.f ==> w'.Ctl(x) == w.Ctl(x) && w'.mem.F(x) == w.mem.F(x)
    ensures w'.mem.M(m) == w.mem.M(m) && w'.mem.C(c) == w.mem.C(c)
  {
  }

  lemma ForeignActors(w: World, team: set<FiberId>, m: MutexId, c: CondId, s: Step, w': World)
    requires Guarded(w, team, m, c) && Foreign(w, team, m, c, s) && Next(w, s, w')
    requires s.Lock? || s.Trylock? || s.Timedlock? || s.TimedlockSlow? || s.Unlock? || s.CondRelease? || s.UnlockFast?
          || s.CondWait? || s.CondTimedwait? || s.SignalBegin? || s.Spawn? || s.Usleep? || s.Waitfor?
    ensures Aloof(w, w', team, m, c)
  {
    hide Inv, Guarded, Next, Mentions, Aloof;
    GuardedParts(w, team, m, c, s.f);
    if s.Lock? || s.Trylock? || s.Timedlock? {
      ActorLock(w, team, m, c, s, w');
    } else if s.TimedlockSlow? || s.Unlock? || s.CondRelease? {
      ActorUnlock(w, team, m, c, s, w');
    } else if s.UnlockFast? {
      ActorUnlockFast(w, team, m, c, s, w');
    } else if s.Waitfor? {
      ActorWaitfor(w, team, m, c, s, w');
    } else if s.Spawn? || s.Usleep? {
      ActorOther(w, team, m, c, s, w');
    } else {
      ActorWait(w, team, m, c, s, w');
    }
    AloofStep(w, w', team, m, c, s.f, s.f);
  }

  lemma ForeignDispatch(w: World, team: set<FiberId>, m: MutexId, c: CondId, w': World)
    requires Guarded(w, team, m, c) && Foreign(w, team, m, c, Dispatch) && Next(w, Dispatch, w')
    ensures Aloof(w, w', team, m, c)
  {
    hide Inv, Guarded;
    AloofStep(w, w', team, m, c, w.mem.ready[0], w.mem.ready[0]);
  }

  lemma ForeignHandoff(w: World, team: set<FiberId>, m: MutexId, c: CondId, f: FiberId, w': World)
    requires Guarded(w, team, m, c) && Foreign(w, team, m, c, UnlockHandoff(f)) && Next(w, UnlockHandoff(f), w')
    ensures Aloof(w, w', team, m, c)
  {
    var n := ReleasingMutex(w.Ctl(f)).value.0;
    GuardedParts(w, team, m, c, f);
    assert n != m && ReleasingMutex(w.Ctl(f)).Some?;
    var q := w.mem.M(n).lockQueue;
    if q == [] {
      hide Inv, Guarded;
      AloofStep(w, w', team, m, c, f, f);
    } else {
      ForeignHandoffHead(w, team, m, c, f, n, q[0], w');
    }
  }

  lemma GrantKeepsAloof(ctl: Control, ctl': Control, m: MutexId, c: CondId)
    requires !Mentions(ctl, m, c) && !Mentions(ctl', m, c)
    ensures !Mentions(AfterUnlock(ctl), m, c) && !Mentions(Granted(ctl'), m, c)
  {
  }

  lemma ForeignHandoffHead(
    w: World, team: set<FiberId>, m: MutexId, c: CondId, f: FiberId, n: MutexId, g: FiberId, w': World)
    requires Guarded(w, team, m, c) && f !in team && Next(w, UnlockHandoff(f), w')
    requires n != m && PreserveMutex.HandsTo(w, f, n, g, w')
    ensures Aloof(w, w', team, m, c)
  {
    hide Inv, Guarded, Places, Timers, Next, Mentions, Untouched;
    GuardedParts(w, team, m, c, f);
    GuardedParts(w, team, m, c, g);
    QueueParts(w);
    PreserveMutex.HandoffHead(w, f, n, g);
    FiberPart(w, f);
    HandoffPositions(w, f, n, g, w');
    PreserveMutex.HandoffOthers(w, f, n, g, w');
    hide PreserveMutex.HandsTo, FiberOk;
    GrantKeepsAloof(w.Ctl(f), w.Ctl(g), m, c);
    AloofStep(w, w', team, m, c, f, g);
  }

  lemma ForeignSignalOne(w: World, team: set<FiberId>, m: MutexId, c: CondId, f: FiberId, w': World)
    requires Guarded(w, team, m, c) && Foreign(w, team, m, c, Step.SignalOne(f)) && Next(w, Step.SignalOne(f), w')
    ensures Aloof(w, w', team, m, c)
  {
    var d := w.Ctl(f).cond;
    var x := w.mem.C(d)[0];
    QueueParts(w);
    PreserveCond.SignalHead(w, f, d, x);
    FiberPart(w, x);
    assert PreserveCond.Signals(w, f, d, x, w') && PreserveCond.WaitsAt(w, f, d, x);
    ForeignSignal(w, team, m, c, f, d, x, w');
  }

  lemma ForeignSignal(
    w: World, team: set<FiberId>, m: MutexId, c: CondId, f: FiberId, d: CondId, x: FiberId, w': World)
    requires Guarded(w, team, m, c) && f !in team
    requires PreserveCond.Signals(w, f, d, x, w') && PreserveCond.WaitsAt(w, f, d, x)
    ensures Aloof(w, w', team, m, c)
  {
    GuardedParts(w, team, m, c, f);
    GuardedParts(w, team, m, c, x);
    assert w.Ctl(f).SignalLoop? && w.Ctl(f).cond == d && w.Ctl(x).Waiting? && w.Ctl(x).cond == d;
    PreserveCond.SignalOneMemory(w, f, d, x, w');
    PreserveCond.SignalOneControl(w, f, d, x, w');
    assert forall y: FiberId :: y != f && y != x ==> w'.mem.F(y) == w.mem.F(y);
    hide Inv, Guarded, PreserveCond.Signals, PreserveCond.WaitsAt;
    AloofStep(w, w', team, m, c, f, x);
  }

  lemma ForeignSignalEnd(w: World, team: set<FiberId>, m: MutexId, c: CondId, f: FiberId, w': World)
    requires Guarded(w, team, m, c) && Foreign(w, team, m, c, SignalEnd(f)) && Next(w, SignalEnd(f), w')
    ensures Aloof(w, w', team, m, c)
  {
    var d := w.Ctl(f).cond;
    GuardedParts(w, team, m, c, f);
    assert d != c;
    forall x: FiberId
      ensures x in team ==> w'.Ctl(x) == w.Ctl(x)
      ensures x !in team ==> !Mentions(w'.Ctl(x), m, c)
    {
      GuardedParts(w, team, m, c, x);
      Outcomes.QueueMembership(w, x, WaitQueue(d));
    }
    hide Inv, Guarded;
  }

  lemma ForeignFire(w: World, team: set<FiberId>, m: MutexId, c: CondId, now: int, w': World)
    requires Guarded(w, team, m, c) && Next(w, Fire(now), w')
    ensures Aloof(w, w', team, m, c)
  {
    var f := w.mem.timerQueue[0];
    QueueParts(w);
    FiberPart(w, f);
    assert f in w.mem.timerQueue;
    assert PreserveTimer.Fires(w, f, w');
    GuardedParts(w, team, m, c, f);
    ForeignFired(w, team, m, c, f, w');
  }

  lemma ForeignFired(w: World, team: set<FiberId>, m: MutexId, c: CondId, f: FiberId, w': World)
    requires Guarded(w, team, m, c) && PreserveTimer.Fires(w, f, w') && f !in team
    ensures Aloof(w, w', team, m, c)
  {
    GuardedParts(w, team, m, c, f);
    PreserveTimer.FireControl(w, f, w');
    PreserveTimer.FireMutexes(w, f, w');
    PreserveTimer.FireConds(w, f, w');
    if !w.Ctl(f).Waiting? { PreserveTimer.FireReady(w, f, w'); }
    forall x: FiberId | x != f ensures w'.mem.F(x) == w.mem.F(x) { PreserveTimer.FireFibers(w, f, w', x); }
    hide Inv, Guarded, PreserveTimer.Fires;
    AloofStep(w, w', team, m, c, f, f);
  }

  lemma ForeignIo(w: World, team: set<FiberId>, m: MutexId, c: CondId, s: Step, w': World)
    requires Guarded(w, team, m, c) && Foreign(w, team, m, c, s) && Next(w, s, w')
    requires s.Handle? || s.Close? || s.Cancelio?
    ensures Aloof(w, w', team, m, c)
  {
    hide Inv, Guarded, Next;
    GuardedParts(w, team, m, c, 0);
    Outcomes.IoMovesPolling(w, s, w');
    IoLeavesLocks(w, s, w');
    forall x: FiberId
      ensures x in team ==> w'.Ctl(x) == w.Ctl(x)
      ensures x !in team ==> !Mentions(w'.Ctl(x), m, c)
    {
      GuardedParts(w, team, m, c, x);
    }
  }

  lemma IoLeavesLocks(w: World, s: Step, w': World)
    requires Next(w, s, w') && (s.Handle? || s.Close? || s.Cancelio?)
    ensures PreserveIo.LocksLeft(w, w')
  {
    match s
    case Close(_, fd, _) =>
      var w1 := FlushBoth(w, fd, true).value;
      PreserveIo.FlushBothLeavesMutexes(w, fd, true, w1);
      hide FlushBoth;
    case Cancelio(_, fd) => PreserveIo.FlushBothLeavesMutexes(w, fd, true, w');
    case Handle(fd) => PreserveIo.HandleLeavesMutexes(w, fd, w');
  }

  lemma ForeignKernel(w: World, team: set<FiberId>, m: MutexId, c: CondId, s: Step, w': World)
    requires Guarded(w, team, m, c) && Next(w, s, w')
    requires s.Deliver? || s.RawClose? || s.TimerSleep? || s.TimerWake?
    ensures Aloof(w, w', team, m, c)
  {
    hide Inv, Mentions, TeamPosition;
    KernelLeaves(w, s, w');
    hide Next;
  }

  lemma KernelLeaves(w: World, s: Step, w': World)
    requires Next(w, s, w') && (s.Deliver? || s.RawClose? || s.TimerSleep? || s.TimerWake?)
    ensures w'.control == w.control && w'.mem.mutexes == w.mem.mutexes && w'.mem.conds == w.mem.conds
    ensures w'.mem.fibers == w.mem.fibers
  {
  }

  lemma ForeignIsAloof(w: World, team: set<FiberId>, m: MutexId, c: CondId, s: Step, w': World)
    requires Guarded(w, team, m, c) && Foreign(w, team, m, c, s) && Next(w, s, w')
    ensures Aloof(w, w', team, m, c)
  {
    hide Inv, Guarded, Next, Aloof;
    match s
    case Dispatch => ForeignDispatch(w, team, m, c, w');
    case UnlockHandoff(f) => ForeignHandoff(w, team, m, c, f, w');
    case SignalOne(f) => ForeignSignalOne(w, team, m, c, f, w');
    case SignalEnd(f) => ForeignSignalEnd(w, team, m, c, f, w');
    case Fire(now) => ForeignFire(w, team, m, c, now, w');
    case Handle(_) => ForeignIo(w, team, m, c, s, w');
    case Close(_, _, _) => ForeignIo(w, team, m, c, s, w');
    case Cancelio(_, _) => ForeignIo(w, team, m, c, s, w');
    case Deliver(_, _) => ForeignKernel(w, team, m, c, s, w');
    case RawClose(_) => ForeignKernel(w, team, m, c, s, w');
    case TimerSleep(_) => ForeignKernel(w, team, m, c, s, w');
    case TimerWake => ForeignKernel(w, team, m, c, s, w');
    case _ => ForeignActors(w, team, m, c, s, w');
  }

  lemma StaysGuarded(s: State)
    requires Good(s)
    ensures Guarded(s.w, s.Busy(), s.m, s.c)
  {
    forall f | f in s.Busy() ensures TeamPosition(s.w.Ctl(f), s.m, s.c) {
      TeamPart(s, f);
    }
    forall x: FiberId | x !in s.Busy() ensures !Mentions(s.w.Ctl(x), s.m, s.c) && !s.Owns(x) {
      if x in s.team { TeamPart(s, x); }
    }
    hide Inv;
  }

  lemma SamePlace(s: State, s': State, h: FiberId)
    requires SameLedger(s, s', h) && s'.pc == s.pc && s'.exits == s.exits && s'.last == s.last && s'.m == s.m
    requires s'.c == s.c
    requires s'.Ctl(h) == s.Ctl(h) && (s'.Owns(h) <==> s.Owns(h)) && s'.w.mem.F(h).lockCount == s.w.mem.F(h).lockCount
    requires PositionOk(s, h) && ProgressOk(s, h)
    ensures PositionOk(s', h) && ProgressOk(s', h)
  {
    LedgerFacts(s, s', h);
  }

  lemma ElsewhereMember(s: State, x: Step, s': State, h: FiberId)
    requires Moves(s, Elsewhere(x), s') && Aloof(s.w, s'.w, s.Busy(), s.m, s.c) && h in s.team
    requires PositionOk(s, h) && ProgressOk(s, h)
    ensures PositionOk(s', h) && ProgressOk(s', h)
  {
    hide Next, Mentions, Foreign, Courteous;
    LedgerFacts(s, s', h);
    if s.Pc(h) != Outside {
      assert h in s.Busy();
      SamePlace(s, s', h);
    }
  }

  /** The fibers that are not in the barrier stay private. */
  lemma ElsewherePrivate(s: State, x: Step, s': State)
    requires Moves(s, Elsewhere(x), s') && Aloof(s.w, s'.w, s.Busy(), s.m, s.c) && Private(s)
    ensures Private(s') && s'.Q() == s.Q()
  {
    hide Next, Mentions, Foreign, Courteous;
  }

  lemma ElsewhereLast(s: State, x: Step, s': State)
    requires Moves(s, Elsewhere(x), s') && Aloof(s.w, s'.w, s.Busy(), s.m, s.c) && LastOk(s)
    ensures LastOk(s')
  {
    hide Next, Mentions, Foreign, Courteous;
    if s.last.Some? { assert s.last.value in s.Busy(); }
    assert s'.Inside() == s.Inside();
  }

  lemma ElsewhereKeeps(s: State, x: Step, s': State)
    requires Good(s) && Moves(s, Elsewhere(x), s')
    ensures Good(s')
  {
    hide Inv, Next, Good, PositionOk, ProgressOk, NoneReleased, NoneGathered, LeaversFirst, Aloof, Guarded, LastOk;
    hide Private;
    RuntimePart(s);
    LastPart(s);
    CountPart(s);
    PhasePart(s);
    StaysGuarded(s);
    ForeignIsAloof(s.w, s.Busy(), s.m, s.c, x, s'.w);
    Safety.NextKeeps(s.w, x, s'.w);
    var f :| f in s.team;
    ContinueLedger(s, x, s', f);
    LedgerFacts(s, s', f);
    forall h | h in s.team ensures PositionOk(s', h) && ProgressOk(s', h) {
      TeamPart(s, h);
      ElsewhereMember(s, x, s', h);
    }
    ElsewherePrivate(s, x, s');
    ElsewhereLast(s, x, s');
    SameQueue(s, s', f);
    GoodAgain(s');
  }

  lemma PhasePart(s: State)
    requires Good(s)
    ensures NoneReleased(s) || NoneGathered(s)
  {
  }

  lemma GoodAgain(s: State)
    requires Inv(s.w) && Private(s) && TeamOk(s) && (NoneReleased(s) || NoneGathered(s)) && LeaversFirst(s)
    requires LastOk(s) && CountOk(s)
    ensures Good(s)
  {
    hide Inv, Private, TeamOk, NoneReleased, NoneGathered, LeaversFirst, LastOk, CountOk;
  }

  // ---- The promises over runs ---------------------------------------------------------------

  lemma MoveKeeps(s: State, v: Move, s': State)
    requires Good(s) && Moves(s, v, s')
    ensures Good(s')
  {
    hide Good, Moves;
    match v
    case CallLock(f) => CallLockKeeps(s, f, s');
    case Decrement(f) => DecrementKeeps(s, f, s');
    case CallBroadcast(f) => CallBroadcastKeeps(s, f, s');
    case CallWait(f) => CallWaitKeeps(s, f, s');
    case Increment(f) => IncrementKeeps(s, f, s');
    case CallUnlock(f) => CallUnlockKeeps(s, f, s');
    case Return(f) => ReturnKeeps(s, f, s');
    case Continue(x) => ContinueKeeps(s, x, s');
    case Elsewhere(x) => ElsewhereKeeps(s, x, s');
  }

  /** A run of the team, interleaved with anything that other fibers do elsewhere. */
  ghost predicate TeamRun(ss: seq<State>, moves: seq<Move>) {
    && |ss| == |moves| + 1
    && Start(ss[0])
    && forall i :: 0 <= i < |moves| ==> Moves(ss[i], moves[i], ss[i + 1])
  }

  lemma {:induction false} RunIsGood(ss: seq<State>, moves: seq<Move>, i: nat)
    requires TeamRun(ss, moves) && i < |ss|
    ensures Good(ss[i])
    ensures ss[i].team == ss[0].team
  {
    hide Good, Start;
    if i == 0 {
      StartIsGood(ss[0]);
    } else {
      RunIsGood(ss, moves, i - 1);
      MoveKeeps(ss[i - 1], moves[i - 1], ss[i]);
      SameTeam(ss[i - 1], moves[i - 1], ss[i]);
    }
  }

  lemma SameTeam(s: State, v: Move, s': State)
    requires Moves(s, v, s')
    ensures s'.team == s.team
  {
    hide Next;
  }

  /** No fiber returns from its k-th wait before every member of the team has arrived k times. */
  lemma NoEarlyReturn(ss: seq<State>, moves: seq<Move>, i: nat, f: FiberId, g: FiberId)
    requires TeamRun(ss, moves) && i < |ss| && f in ss[0].team && g in ss[0].team
    ensures ss[i].Ret(f) <= ss[i].Arr(g)
  {
    RunIsGood(ss, moves, i);
    TeamPart(ss[i], f);
    TeamPart(ss[i], g);
    var s := ss[i];
    assert NoneReleased(s) || NoneGathered(s);
    hide Good, TeamRun, PositionOk;
  }

  /** A member that waits although its phase is complete does so only while the last member to arrive has
      not finished its broadcast; afterwards nobody of that phase waits. */
  lemma CompletePhaseIsWoken(ss: seq<State>, moves: seq<Move>, i: nat, g: FiberId)
    requires TeamRun(ss, moves) && i < |ss| && g in ss[0].team
    requires ss[i].Ctl(g).Waiting? && ss[i].Pc(g) != Outside && ss[i].Arr(g) <= ss[i].phase
    ensures exists f :: f in ss[i].team && ss[i].Broadcasting(f) && forall h :: h in ss[i].team ==> ss[i].Arrived(h)
  {
    RunIsGood(ss, moves, i);
    TeamPart(ss[i], g);
    var s := ss[i];
    assert LastOk(s) && s.team == ss[0].team;
    hide Good, TeamRun, Inv;
    assert s.Released(g);
    assert s.Broadcasting(s.last.value);
    forall h | h in s.team ensures s.Arrived(h) { assert h in s.Inside(); }
  }

  lemma AllInside(s: State, s': State, f: FiberId)
    requires s'.Inside() == s.Inside() + {f} && s'.team == s.team && f in s.team
    ensures (forall g :: g in s.team && g != f ==> s.Gathered(g)) ==> s'.Inside() == s.team
  {
    forall g | g in s'.Inside() ensures g in s.team { }
  }

  /** The count never wraps: a decrement finds the team's size minus the members that arrived
      before it in this phase, and reaches 0 exactly if all the others did. */
  lemma DecrementFindsTheCount(ss: seq<State>, moves: seq<Move>, i: nat, f: FiberId)
    requires TeamRun(ss, moves) && i < |moves| && moves[i] == Decrement(f)
    ensures
      var s, s' := ss[i], ss[i + 1];
      && NoneReleased(s)
      && s.count == |s.team| - |set g | g in s.team && s.Gathered(g)|
      && s'.count == s.count - 1
      && (s'.count == 0 <==> forall g :: g in s.team && g != f ==> s.Gathered(g))
  {
    var s, s' := ss[i], ss[i + 1];
    RunIsGood(ss, moves, i);
    assert Moves(s, moves[i], s');
    hide TeamRun, Good;
    DecrementCounts(s, f, s');
  }

  lemma DecrementCounts(s: State, f: FiberId, s': State)
    requires Good(s) && Moves(s, Decrement(f), s')
    ensures NoneReleased(s)
    ensures s.count == |s.team| - |set g | g in s.team && s.Gathered(g)|
    ensures s'.count == s.count - 1
    ensures s'.count == 0 <==> forall g :: g in s.team && g != f ==> s.Gathered(g)
  {
    hide Inv;
    DecrementKeeps(s, f, s');
    TeamPart(s, f);
    CountPart(s);
    RuntimePart(s);
    InsideGrows(s, s', f);
    var gathered := set g | g in s.team && s.Gathered(g);
    forall g | g in s.team ensures s.Arrived(g) <==> s.Gathered(g) { TeamPart(s, g); }
    assert gathered == s.Inside();
    hide Good, ProgressOk;
    if s'.count == 0 {
      forall g | g in s.team && g != f ensures s.Gathered(g) { assert g in s'.Inside(); }
    }
    AllInside(s, s', f);
  }

  /** The first decrement of a phase finds the count restored to the size of the team. */
  lemma CountIsRestored(ss: seq<State>, moves: seq<Move>, i: nat, f: FiberId)
    requires TeamRun(ss, moves) && i < |moves| && moves[i] == Decrement(f)
    requires NoneGathered(ss[i])
    ensures ss[i].count == |ss[i].team|
    ensures forall g :: g in ss[i].team ==> ss[i].Arr(g) == ss[i].phase && !ss[i].Arrived(g)
  {
    var s := ss[i];
    DecrementFindsTheCount(ss, moves, i, f);
    RunIsGood(ss, moves, i);
    assert (set g | g in s.team && s.Gathered(g)) == {};
    forall g | g in s.team ensures s.Arr(g) == s.phase && !s.Arrived(g) { TeamPart(s, g); }
    hide Good, TeamRun;
  }
}

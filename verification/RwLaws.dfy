/** Who may enter the lock of src/rwlock.c, what a release does, and what a call leaves behind. */
module RwLaws {
  import opened Memory
  import opened Machine
  import opened Invariant
  import opened RwLock
  import Calls
  import Outcomes
  import MutexLaws
  import IoLaws
  import Regions

  // ---- Who may enter ------------------------------------------------------------------------

  /** Nobody holds the lock against the operation: a reader enters beside readers, a writer alone or on
      top of its own holds. */
  ghost predicate Free(s: State, f: FiberId, op: Op) {
    if op == ReadLock then s.writers == multiset{}
    else s.readers == multiset{} && forall g :: g in s.writers ==> g == f
  }

  lemma WaitsExactly(s: State, f: FiberId, op: Op)
    requires FieldsOk(s) && s.Pc(f).Checking? && op != Release
    ensures s.MustWait(f, op) <==> !Free(s, f, op)
  {
    if s.MustWait(f, op) {
      assert s.readers == multiset{} || s.readers != multiset{};
      if s.writers != multiset{} {
        var g :| g in s.writers;
        assert op == WriteLock ==> g != f;
      } else {
        assert s.readers != multiset{} by { assert |s.readers| > 0; }
      }
    } else {
      MayClaim(s, f, op);
    }
  }

  /** A lock function goes on to take the lock exactly if nobody holds it against the operation.  If
      somebody does, the try functions give up, a failed melon_rwlock_tryrdlock with the internal mutex
      still locked, and the others wait on the condition of the operation. */
  lemma EntersExactly(s: State, f: FiberId, t: nat, s': State)
    requires Good(s) && Moves(s, Check(f, t), s')
    ensures
      var Checking(op, mode) := s.Pc(f);
      && op != Release
      && (Free(s, f, op) <==> s'.Pc(f) == Claiming(op))
      && (Free(s, f, op) || mode == Try ==> s'.w == s.w && s'.w.Ctl(f) == Running && s'.w.Owns(f, s.m))
      && (!Free(s, f, op) && mode == Try ==> s'.Pc(f) == if op == ReadLock then Outside else ToUnlock)
      && (!Free(s, f, op) && mode != Try ==>
            var c := if op == ReadLock then s.rcond else s.wcond;
            && s'.Pc(f) == Blocked(op, mode) && s'.w.Ctl(f) == Waiting(c, s.m, mode == Timed, Pushed, false)
            && s'.w.mem.C(c) == s.w.mem.C(c) + [f])
      && SameFields(s, s')
  {
    hide Inv, FieldsOk, Free, Good, Moves;
    Parts(s, f);
    CheckStarts(s, f, t, s');
    WaitsExactly(s, f, s.Pc(f).op);
    if s.MustWait(f, s.Pc(f).op) && s.Pc(f).mode != Try { CheckBlocks(s, f, t, s'); } else { CheckGoesOn(s, f, t, s'); }
  }

  lemma CheckStarts(s: State, f: FiberId, t: nat, s': State)
    requires Moves(s, Check(f, t), s') && PositionOk(s, f) && KnowledgeOk(s, f)
    ensures s.Pc(f).Checking? && s.Pc(f).op != Release && s.Runs(f) && s.w.Owns(f, s.m) && SameFields(s, s')
  {
    hide Next;
  }

  lemma CheckGoesOn(s: State, f: FiberId, t: nat, s': State)
    requires Moves(s, Check(f, t), s') && s.Pc(f).Checking?
    requires !s.MustWait(f, s.Pc(f).op) || s.Pc(f).mode == Try
    ensures s'.w == s.w
    ensures s'.Pc(f) == if !s.MustWait(f, s.Pc(f).op) then Claiming(s.Pc(f).op)
                        else if s.Pc(f).op == ReadLock then Outside else ToUnlock
  {
    hide State.MustWait;
  }

  lemma CheckBlocks(s: State, f: FiberId, t: nat, s': State)
    requires Moves(s, Check(f, t), s') && s.Pc(f).Checking? && s.Pc(f).op != Release
    requires s.MustWait(f, s.Pc(f).op) && s.Pc(f).mode != Try
    ensures
      var Checking(op, mode) := s.Pc(f);
      var c := if op == ReadLock then s.rcond else s.wcond;
      && s'.Pc(f) == Blocked(op, mode) && s'.w.Ctl(f) == Waiting(c, s.m, mode == Timed, Pushed, false)
      && s'.w.mem.C(c) == s.w.mem.C(c) + [f]
  {
    hide State.MustWait;
  }

  // ---- What a release does ------------------------------------------------------------------

  /** An unlock gives up one hold of the fiber, and goes on to wake a writer exactly if that was the last
      hold of anybody. */
  lemma ReleasesExactly(s: State, f: FiberId, s': State)
    requires Good(s) && Moves(s, Uncount(f), s')
    ensures s.readers + s.writers == s'.readers + s'.writers + multiset{f}
    ensures s'.Pc(f) == Clearing <==> s'.readers == multiset{} && s'.writers == multiset{}
    ensures s'.Pc(f) == Clearing || s'.Pc(f) == ToUnlock
  {
    hide Good, Inv, PositionOk;
    Parts(s, f);
    if f in s.readers { UncountReader(s, f, s'); } else { UncountWriter(s, f, s'); OneWriter(s, f); }
    hide Next;
    assert s'.lockCount == |s'.readers| + |s'.writers|;
    if s'.readers != multiset{} { assert |s'.readers| > 0; }
    if s'.writers != multiset{} { assert |s'.writers| > 0; }
  }

  // ---- Moves as steps of the runtime --------------------------------------------------------

  /** The step of the runtime that a move takes, if it takes one. */
  function StepOf(s: State, v: Move): Option<Step> {
    match v
    case Call(f, _, mode, t) => Some(if mode == Timed then Step.Timedlock(f, s.m, t) else Step.Lock(f, s.m))
    case Check(f, t) =>
      if s.Pc(f).Checking? && s.MustWait(f, s.Pc(f).op) && s.Pc(f).mode != Try then
        Some(if s.Pc(f).mode == Timed then CondTimedwait(f, s.Cond(s.Pc(f).op), s.m, t)
             else CondWait(f, s.Cond(s.Pc(f).op), s.m))
      else None
    case Signal(f) => Some(SignalBegin(f, s.wcond, 1))
    case Unlock(f) => Some(Step.Unlock(f, s.m))
    case Runtime(x) => Some(x)
    case _ => None
  }

  predicate MovedBy(v: Move, f: FiberId) {
    !v.Runtime? && v.f == f
  }

  /** A move is at most one step of the runtime. */
  lemma MoveIsStep(s: State, v: Move, s': State)
    requires Moves(s, v, s')
    ensures StepOf(s, v) == None ==> s'.w == s.w
    ensures StepOf(s, v).Some? ==> Next(s.w, StepOf(s, v).value, s'.w)
  {
    hide Next, State.MustWait, State.Holds;
  }

  predicate CalledBy(x: Option<Step>, f: FiberId) {
    x.Some? && Calls.IsCall(x.value) && x.value.f == f
  }

  lemma RuntimeMovesNobody(s: State, x: Step, s': State)
    requires Moves(s, Runtime(x), s')
    ensures s'.pc == s.pc
  {
    hide Next;
  }

  lemma OwnPc(s: State, v: Move, s': State)
    requires Moves(s, v, s') && !v.Runtime?
    ensures s'.pc == s.pc[v.f := s'.Pc(v.f)]
  {
    hide Next, State.MustWait, State.Holds;
  }

  /** It moves only its own fiber in the lock's functions. */
  lemma OthersStay(s: State, v: Move, s': State, f: FiberId)
    requires Moves(s, v, s') && !MovedBy(v, f)
    ensures s'.Pc(f) == s.Pc(f)
  {
    hide Moves;
    if v.Runtime? { RuntimeMovesNobody(s, v.s, s'); } else { OwnPc(s, v, s'); }
  }

  /** A fiber in one of the functions makes no other call. */
  lemma NoOtherCall(s: State, v: Move, s': State, f: FiberId)
    requires Moves(s, v, s') && !MovedBy(v, f) && s.Pc(f) != Outside
    ensures !CalledBy(StepOf(s, v), f)
  {
    if v.Runtime? { CallsFromOutside(s, v.s, s'); } else { hide Moves; StepIsOwn(s, v); }
  }

  lemma CallsFromOutside(s: State, x: Step, s': State)
    requires Moves(s, Runtime(x), s')
    ensures Calls.IsCall(x) ==> s.Pc(x.f) == Outside
  {
    hide Next;
  }

  lemma StepIsOwn(s: State, v: Move)
    requires !v.Runtime?
    ensures StepOf(s, v).Some? ==> Calls.IsCall(StepOf(s, v).value) && StepOf(s, v).value.f == v.f
  {
  }

  lemma SameLock(s: State, v: Move, s': State)
    requires Moves(s, v, s')
    ensures s'.m == s.m && s'.wcond == s.wcond && s'.rcond == s.rcond
  {
    hide Next, State.MustWait, State.Holds;
  }

  // ---- The last release wakes a writer ------------------------------------------------------

  ghost predicate SignalsBetween(moves: seq<Move>, i: nat, n: nat, f: FiberId) {
    exists k :: i < k < n <= |moves| && moves[k] == Move.Signal(f)
  }

  /** Where a fiber is after its release: on its way to the signal if it was the last, then to the end. */
  ghost predicate ReleaseGoesOn(p: Pc, signals: bool, p': Pc) {
    && (p == Clearing || p == ToSignal ==> if signals then p' == Signalling else p' == Clearing || p' == ToSignal)
    && (p == Signalling || p == ToUnlock ==> !signals && (p' == Signalling || p' == ToUnlock))
    && (p == ToUnlock ==> p' == ToUnlock)
  }

  lemma OwnReleaseMoves(s: State, v: Move, s': State)
    requires Moves(s, v, s') && !v.Runtime? && !v.Unlock?
    ensures ReleaseGoesOn(s.Pc(v.f), v.Signal?, s'.Pc(v.f))
  {
    hide Next, State.MustWait, State.Holds;
  }

  lemma ReleaseMoves(s: State, v: Move, s': State, f: FiberId)
    requires Moves(s, v, s') && v != Move.Unlock(f)
    ensures ReleaseGoesOn(s.Pc(f), v == Move.Signal(f), s'.Pc(f))
  {
    hide Moves;
    if MovedBy(v, f) { OwnReleaseMoves(s, v, s'); } else { OthersStay(s, v, s', f); }
  }

  lemma UncountPc(s: State, f: FiberId, s': State)
    requires Moves(s, Uncount(f), s')
    ensures s'.Pc(f) == Clearing || s'.Pc(f) == ToUnlock
  {
  }

  lemma {:induction false} ReleasePath(ss: seq<State>, moves: seq<Move>, i: nat, n: nat, f: FiberId)
    requires RwLock.Run(ss, moves) && i < n <= |moves| && moves[i] == Uncount(f)
    requires forall k :: i < k < n ==> moves[k] != Move.Unlock(f)
    ensures
      var last, p := ss[i + 1].Pc(f) == Clearing, ss[n].Pc(f);
      if !last then p == ToUnlock && !SignalsBetween(moves, i, n, f)
      else if SignalsBetween(moves, i, n, f) then p == Signalling || p == ToUnlock
      else p == Clearing || p == ToSignal
  {
    hide Start, Next, Moves;
    assert Moves(ss[n - 1], moves[n - 1], ss[n]);
    if n == i + 1 {
      UncountPc(ss[i], f, ss[n]);
    } else {
      ReleasePath(ss, moves, i, n - 1, f);
      ReleaseMoves(ss[n - 1], moves[n - 1], ss[n], f);
      if moves[n - 1] == Move.Signal(f) {
        assert SignalsBetween(moves, i, n, f);
      } else {
        assert SignalsBetween(moves, i, n, f) <==> SignalsBetween(moves, i, n - 1, f);
      }
    }
  }

  /** Before it gives up the internal mutex, a release signals the writers' condition exactly if nobody
      holds the lock any more. */
  lemma LastReleaseSignals(ss: seq<State>, moves: seq<Move>, i: nat, j: nat, f: FiberId)
    requires RwLock.Run(ss, moves) && i < j < |moves| && moves[i] == Uncount(f) && moves[j] == Move.Unlock(f)
    requires forall k :: i < k < j ==> moves[k] != Move.Unlock(f)
    ensures SignalsBetween(moves, i, j, f) <==> ss[i + 1].readers == multiset{} && ss[i + 1].writers == multiset{}
    ensures forall k :: i < k < j && moves[k] == Move.Signal(f) ==>
              Next(ss[k].w, SignalBegin(f, ss[k].wcond, 1), ss[k + 1].w)
  {
    hide Good, Next, Start;
    RunIsGood(ss, moves, i);
    assert Moves(ss[i], moves[i], ss[i + 1]);
    assert Moves(ss[j], moves[j], ss[j + 1]);
    ReleasesExactly(ss[i], f, ss[i + 1]);
    ReleasePath(ss, moves, i, j, f);
    forall k | i < k < j && moves[k] == Move.Signal(f)
      ensures Next(ss[k].w, SignalBegin(f, ss[k].wcond, 1), ss[k + 1].w)
    {
      assert Moves(ss[k], moves[k], ss[k + 1]);
    }
  }

  // ---- What a call leaves behind ------------------------------------------------------------

  /** The fiber gives up the internal mutex, or has given it up. */
  ghost predicate GivenUp(w: World, f: FiberId, m: MutexId) {
    (w.Ctl(f).Unlocking? && w.Ctl(f).mutex == m) || (w.Ctl(f) == Running && !w.Owns(f, m))
  }

  /** The internal mutex is not recursive, and fibers on their way out give it up. */
  ghost predicate Tidy(s: State) {
    !s.w.mem.M(s.m).isRecursive && forall f: FiberId :: s.Pc(f) == Exiting ==> GivenUp(s.w, f, s.m)
  }

  lemma UnlockingGoesOn(w: World, x: Step, w': World, f: FiberId, m: MutexId)
    requires Inv(w) && Inv(w') && Next(w, x, w') && w.Ctl(f).Unlocking? && w.Ctl(f).mutex == m
    ensures GivenUp(w', f, m)
  {
    hide Inv;
    if Calls.Actor(w, x) == Some(f) {
      UnlockingActs(w, x, f);
      if x.UnlockFast? {
        MutexLaws.FastEffect(w, f, w');
      } else {
        Calls.HandoffSelf(w, f, w');
        MutexLaws.HandoffEffect(w, f, w');
      }
    } else {
      hide Next;
      Calls.Undisturbed(w, x, w', f);
    }
  }

  lemma UnlockingActs(w: World, x: Step, f: FiberId)
    requires Inv(w) && Enabled(w, x) && Calls.Actor(w, x) == Some(f) && w.Ctl(f).Unlocking?
    ensures x == UnlockFast(f) || x == UnlockHandoff(f)
  {
    Calls.NotDispatched(w, x, f);
    hide Inv;
  }

  lemma GivenUpStays(w: World, x: Step, w': World, f: FiberId, m: MutexId)
    requires Inv(w) && Inv(w') && Next(w, x, w') && GivenUp(w, f, m) && !CalledBy(Some(x), f)
    ensures GivenUp(w', f, m)
  {
    hide Inv, Next;
    if w.Ctl(f) == Running {
      RunningStays(w, x, w', f, m);
      MutexLaws.RunsWithout(w, x, w', f, m);
    } else {
      UnlockingGoesOn(w, x, w', f, m);
    }
  }

  lemma TidyKept(s: State, v: Move, s': State)
    requires Good(s) && Good(s') && Tidy(s) && Moves(s, v, s')
    ensures Tidy(s')
  {
    hide Inv, Next, Moves, Good, GivenUp;
    Parts(s, 0);
    Parts(s', 0);
    SameLock(s, v, s');
    MoveIsStep(s, v, s');
    var x := StepOf(s, v);
    if x.Some? { MutexLaws.KindIsFixed(s.w, x.value, s'.w, s.m); }
    forall f: FiberId | s'.Pc(f) == Exiting ensures GivenUp(s'.w, f, s.m) {
      if MovedBy(v, f) {
        OnlyUnlockExits(s, v, s', f);
      } else {
        OthersStay(s, v, s', f);
        NoOtherCall(s, v, s', f);
        if x.Some? { GivenUpStays(s.w, x.value, s'.w, f, s.m); }
      }
    }
  }

  lemma OnlyUnlockExits(s: State, v: Move, s': State, f: FiberId)
    requires Good(s) && Tidy(s) && Moves(s, v, s') && MovedBy(v, f) && s'.Pc(f) == Exiting
    ensures GivenUp(s'.w, f, s.m)
  {
    hide Good, Next, Moves, Inv;
    Parts(s, f);
    ExitIsUnlock(s, v, s', f);
    MutexLaws.UnlockExactly(s.w, f, s.m, s'.w);
    MutexPart(s.w, s.m);
  }

  lemma ExitIsUnlock(s: State, v: Move, s': State, f: FiberId)
    requires Moves(s, v, s') && MovedBy(v, f) && s'.Pc(f) == Exiting
    ensures s.Pc(f) == ToUnlock && Next(s.w, Step.Unlock(f, s.m), s'.w)
  {
    hide Next, State.MustWait, State.Holds;
  }

  lemma {:induction false} RunIsTidy(ss: seq<State>, moves: seq<Move>, i: nat)
    requires RwLock.Run(ss, moves) && !ss[0].w.mem.M(ss[0].m).isRecursive && i < |ss|
    ensures Tidy(ss[i])
  {
    hide Good, Moves;
    if i > 0 {
      RunIsTidy(ss, moves, i - 1);
      RunIsGood(ss, moves, i - 1);
      RunIsGood(ss, moves, i);
      TidyKept(ss[i - 1], moves[i - 1], ss[i]);
    }
  }

  /** In every run: a call of a lock or unlock function ends with the internal mutex given up, unless it is
      a melon_rwlock_tryrdlock that fails, which always keeps it, or a timed call that could not get it in
      time. */
  lemma CallsGiveUpTheMutex(ss: seq<State>, moves: seq<Move>, i: nat, f: FiberId)
    requires RwLock.Run(ss, moves) && !ss[0].w.mem.M(ss[0].m).isRecursive && i < |moves|
    requires ss[i].Pc(f) != Outside && ss[i + 1].Pc(f) == Outside
    ensures
      var s, s' := ss[i], ss[i + 1];
      && (s.Pc(f) == Checking(ReadLock, Try) ==> s.writers != multiset{} && s'.w.Owns(f, s.m))
      && (s.Pc(f) != Checking(ReadLock, Try) ==>
            if s.Pc(f).Entering? then s.Pc(f).mode == Timed && s.w.Ret(f) != RetOk else !s'.w.Owns(f, s.m))
  {
    hide Good;
    RunIsGood(ss, moves, i);
    RunIsTidy(ss, moves, i);
    var s, v, s' := ss[i], moves[i], ss[i + 1];
    assert Moves(s, v, s');
    hide RwLock.Run;
    if !MovedBy(v, f) {
      OthersStay(s, v, s', f);
    } else if v.Check? {
      EntersExactly(s, f, v.timeout, s');
    }
    hide Next, State.MustWait;
  }

  // ---- A reader that has to wait ------------------------------------------------------------

  /** `f` waits on `c` without a timeout. */
  predicate WaitsForGood(w: World, f: FiberId, c: CondId) {
    w.Ctl(f).Waiting? && w.Ctl(f).cond == c && !w.Ctl(f).timed
  }

  lemma NotSignalled(w: World, x: Step, w': World, f: FiberId, c: CondId)
    requires Inv(w) && Next(w, x, w') && x.SignalOne? && WaitsForGood(w, f, c) && !w.SpinHeld(c)
    ensures w'.Ctl(f) == w.Ctl(f)
  {
    var d := w.Ctl(x.f).cond;
    Outcomes.QueueMembership(w, w.mem.C(d)[0], WaitQueue(d));
    Outcomes.UnsignalledWaiter(w, x.f, w', f) by { assert f != w.mem.C(d)[0]; }
  }

  /** Only a signaller of its condition, or a timer, takes a waiter off. */
  lemma WaiterStays(w: World, x: Step, w': World, f: FiberId, c: CondId)
    requires Inv(w) && Inv(w') && Next(w, x, w') && WaitsForGood(w, f, c) && !w.SpinHeld(c)
    ensures WaitsForGood(w', f, c)
  {
    hide Inv, Next, Outcomes.LeftCondition;
    if x.SignalOne? {
      NotSignalled(w, x, w', f, c);
    } else if x.Fire? {
      Outcomes.LockWaiterFire(w, x.now, w', f);
      Outcomes.QueueMembership(w, f, ReadyQueue);
    } else {
      Outcomes.CondWaiterMoves(w, x, w', f);
    }
  }

  lemma NobodySignals(w: World, x: Step, w': World, c: CondId)
    requires Inv(w) && Next(w, x, w') && !w.SpinHeld(c) && !(x.SignalBegin? && x.c == c)
    ensures !w'.SpinHeld(c)
  {
    if x.SignalBegin? || x.SignalEnd? {
      hide Inv;
    } else {
      IoLaws.BigStays(w, x, w');
      hide Inv, Next;
      if w.big.Some? { SignallerStays(w, x, w', w.big.value); }
    }
  }

  lemma SignallerStays(w: World, x: Step, w': World, g: FiberId)
    requires Inv(w) && Next(w, x, w') && w.big == Some(g) && !x.SignalBegin? && !x.SignalEnd?
    ensures w.Ctl(g).SignalLoop? && w'.Ctl(g).SignalLoop? && w'.Ctl(g).cond == w.Ctl(g).cond
  {
    QueueParts(w);
    hide Inv, Next;
    if Calls.Actor(w, x) == Some(g) {
      Calls.SignalStepSelf(w, x, w', g);
      OwnLoop(w, x, w', g);
    } else {
      Calls.Undisturbed(w, x, w', g);
    }
  }

  lemma OwnLoop(w: World, x: Step, w': World, g: FiberId)
    requires Inv(w) && Next(w, x, w') && x == Step.SignalOne(g)
    ensures w.Ctl(g).SignalLoop? && w'.Ctl(g).SignalLoop? && w'.Ctl(g).cond == w.Ctl(g).cond
  {
    MutexLaws.SignalWakes(w, g, w');
    var q := w.mem.C(w.Ctl(g).cond);
    Outcomes.QueueMembership(w, q[0], WaitQueue(w.Ctl(g).cond));
    hide Inv, Regions.SignalOne;
  }

  /** Some fiber outside the lock signals the readers' condition itself. */
  predicate Interferes(s: State, v: Move) {
    v.Runtime? && v.s.SignalBegin? && v.s.c == s.rcond
  }

  lemma LockSignalsWriters(s: State, v: Move)
    requires s.wcond != s.rcond && !Interferes(s, v) && StepOf(s, v).Some?
    ensures var x := StepOf(s, v).value; !(x.SignalBegin? && x.c == s.rcond)
  {
  }

  /** In every run: a reader that has once begun to wait without a timeout waits for ever, whoever releases
      the lock and how often, unless a fiber signals the readers' condition behind the lock's back. */
  lemma {:induction false} WaitingReaderIsLost(ss: seq<State>, moves: seq<Move>, i: nat, j: nat, f: FiberId)
    requires RwLock.Run(ss, moves) && i <= j < |ss| && ss[i].wcond != ss[i].rcond
    requires WaitsForGood(ss[i].w, f, ss[i].rcond) && !ss[i].w.SpinHeld(ss[i].rcond)
    requires forall k :: i <= k < j ==> !Interferes(ss[k], moves[k])
    ensures ss[j].rcond == ss[i].rcond && ss[j].wcond == ss[i].wcond
    ensures WaitsForGood(ss[j].w, f, ss[j].rcond) && !ss[j].w.SpinHeld(ss[j].rcond)
  {
    hide Good, Moves, Next, Inv, WaitsForGood, World.SpinHeld;
    if i < j {
      WaitingReaderIsLost(ss, moves, i, j - 1, f);
      var s, v, s' := ss[j - 1], moves[j - 1], ss[j];
      RunIsGood(ss, moves, j - 1);
      RunIsGood(ss, moves, j);
      Parts(s, f);
      Parts(s', f);
      SameLock(s, v, s');
      MoveIsStep(s, v, s');
      if StepOf(s, v).Some? {
        LockSignalsWriters(s, v);
        WaiterStays(s.w, StepOf(s, v).value, s'.w, f, s.rcond);
        NobodySignals(s.w, StepOf(s, v).value, s'.w, s.rcond);
      }
    }
  }
}

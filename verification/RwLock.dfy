/** src/rwlock.c: any number of fibers that use a reader/writer lock, while every fiber that is not in
    one of its functions does anything else. */
module RwLock {
  import opened Memory
  import opened Machine
  import opened Invariant
  import Safety
  import Calls

  const INT_MAX: int := 0x7FFF_FFFF

  datatype Op = ReadLock | WriteLock | Release

  /** The plain functions, the ones that do not wait, and the ones with a positive timeout. */
  datatype Mode = Forever | Try | Timed

  /** The next statement of a fiber in one of the functions. */
  datatype Pc =
    | Outside
    | Entering(op: Op, mode: Mode)
    | Checking(op: Op, mode: Mode)
    | Blocked(op: Op, mode: Mode)
    | Claiming(op: Op)
    | Counting(op: Op)
    | Uncounting
    | Clearing
    | ToSignal
    | Signalling
    | ToUnlock
    | Exiting

  /** The fields of melon_rwlock, and who has locked it, as often as it has. */
  datatype State = State(
    w: World,
    m: MutexId,
    wcond: CondId,
    rcond: CondId,
    lockCount: int,
    isRead: bool,
    wowner: Option<FiberId>,
    pc: map<FiberId, Pc>,
    readers: multiset<FiberId>,
    writers: multiset<FiberId>)
  {
    function Pc(f: FiberId): Pc {
      if f in pc then pc[f] else Outside
    }

    function At(f: FiberId, p: Pc): State { this.(pc := pc[f := p]) }

    predicate Runs(f: FiberId) { w.Ctl(f) == Running }

    /** The condition of the loop of the lock functions. */
    predicate MustWait(f: FiberId, op: Op) {
      if op == ReadLock then lockCount > 0 && !isRead else wowner != Some(f) && lockCount > 0
    }

    function Cond(op: Op): CondId {
      if op == ReadLock then rcond else wcond
    }

    predicate Holds(f: FiberId) { f in readers || f in writers }
  }

  datatype Move =
    | Call(f: FiberId, op: Op, mode: Mode, timeout: nat)
    | Entered(f: FiberId)
    | Check(f: FiberId, timeout: nat)
    | Woken(f: FiberId)
    | Claim(f: FiberId)
    | Count(f: FiberId)
    | Uncount(f: FiberId)
    | Clear(f: FiberId)
    | Signal(f: FiberId)
    | Signalled(f: FiberId)
    | Unlock(f: FiberId)
    | Return(f: FiberId)
    | Runtime(s: Step)

  /** What a fiber does after the call for the internal mutex has returned. */
  function AfterEntry(s: State, f: FiberId): Pc
    requires s.Pc(f).Entering?
  {
    var Entering(op, mode) := s.Pc(f);
    if mode == Timed && s.w.Ret(f) != RetOk then Outside
    else if op == Release then Uncounting
    else Checking(op, mode)
  }

  /** One statement of a function of the lock, or a step of the runtime.  Only a holder unlocks.
      melon_rwlock_tryrdlock returns with the internal mutex if it fails; a count that would overflow
      fails an assertion. */
  ghost predicate Moves(s: State, v: Move, s': State) {
    match v
    case Call(f, op, mode, t) =>
      && s.Pc(f) == Outside && s.Runs(f)
      && (op == Release ==> s.Holds(f) && mode == Forever)
      && (mode == Timed ==> 0 < t < TWO_63)
      && Next(s.w, if mode == Timed then Step.Timedlock(f, s.m, t) else Step.Lock(f, s.m), s'.w)
      && s' == s.At(f, Entering(op, mode)).(w := s'.w)
    case Entered(f) =>
      s.Pc(f).Entering? && s.Runs(f) && s' == s.At(f, AfterEntry(s, f))
    case Check(f, t) =>
      && s.Pc(f).Checking? && s.Runs(f)
      && var Checking(op, mode) := s.Pc(f);
         if !s.MustWait(f, op) then s' == s.At(f, Claiming(op))
         else if mode == Try then s' == s.At(f, if op == ReadLock then Outside else ToUnlock)
         else
           && (mode == Timed ==> 0 < t < TWO_63)
           && Next(s.w, if mode == Timed then CondTimedwait(f, s.Cond(op), s.m, t)
               else CondWait(f, s.Cond(op), s.m), s'.w)
           && s' == s.At(f, Blocked(op, mode)).(w := s'.w)
    case Woken(f) =>
      && s.Pc(f).Blocked? && s.Runs(f)
      && var Blocked(op, mode) := s.Pc(f);
         s' == s.At(f, if mode == Timed && s.w.Ret(f) != RetOk then ToUnlock else Checking(op, mode))
    case Claim(f) =>
      && s.Pc(f).Claiming? && s.Runs(f)
      && var op := s.Pc(f).op;
         s' == s.At(f, Counting(op)).(isRead := op == ReadLock, wowner := if op == ReadLock then s.wowner else Some(f))
    case Count(f) =>
      && s.Pc(f).Counting? && s.Runs(f) && s.lockCount < INT_MAX
      && var op := s.Pc(f).op;
         s' == s.At(f, ToUnlock).(
           lockCount := s.lockCount + 1,
           readers := if op == ReadLock then s.readers + multiset{f} else s.readers,
           writers := if op == ReadLock then s.writers else s.writers + multiset{f})
    case Uncount(f) =>
      && s.Pc(f) == Uncounting && s.Runs(f)
      && s' == s.At(f, if s.lockCount == 1 then Clearing else ToUnlock).(
           lockCount := s.lockCount - 1,
           readers := s.readers - multiset{f},
           writers := if f in s.readers then s.writers else s.writers - multiset{f})
    case Clear(f) => s.Pc(f) == Clearing && s.Runs(f) && s' == s.At(f, ToSignal).(wowner := None)
    case Signal(f) =>
      s.Pc(f) == ToSignal && Next(s.w, SignalBegin(f, s.wcond, 1), s'.w) && s' == s.At(f, Signalling).(w := s'.w)
    case Signalled(f) => s.Pc(f) == Signalling && s.Runs(f) && s' == s.At(f, ToUnlock)
    case Unlock(f) =>
      s.Pc(f) == ToUnlock && Next(s.w, Step.Unlock(f, s.m), s'.w) && s' == s.At(f, Exiting).(w := s'.w)
    case Return(f) => s.Pc(f) == Exiting && s.Runs(f) && s' == s.At(f, Outside)
    case Runtime(x) =>
      && Next(s.w, x, s'.w) && Courteous(s.w, x) && s' == s.(w := s'.w)
      && (Calls.IsCall(x) ==> s.Pc(x.f) == Outside)
  }

  // ---- The invariant ------------------------------------------------------------------------

  /** The positions between the return of the call for the internal mutex and its release. */
  predicate Inside(p: Pc) {
    !(p.Outside? || p.Entering? || p.Blocked? || p.Exiting?)
  }

  /** A fiber inside owns the internal mutex. */
  ghost predicate PositionOk(s: State, f: FiberId) {
    match s.Pc(f)
    case Outside => true
    case Exiting => true
    case Entering(op, mode) =>
      && (Calls.InLock(s.w.Ctl(f), s.m, mode == Timed) || Calls.LockDone(s.w, f, s.m, mode == Timed))
      && (op == Release ==> s.Holds(f))
    case Blocked(_, _) => Calls.InWait(s.w.Ctl(f), s.m) || (s.Runs(f) && s.w.Owns(f, s.m))
    case Signalling => (s.Runs(f) || s.w.Ctl(f).SignalLoop?) && s.w.Owns(f, s.m)
    case _ => s.Runs(f) && s.w.Owns(f, s.m)
  }

  /** What a fiber inside has found out about the lock. */
  ghost predicate KnowledgeOk(s: State, f: FiberId) {
    match s.Pc(f)
    case Checking(op, _) => op != Release
    case Blocked(op, _) => op != Release
    case Claiming(op) =>
      if op == ReadLock then s.writers == multiset{}
      else op == WriteLock && s.readers == multiset{} && forall g :: g in s.writers ==> g == f
    case Counting(op) =>
      if op == ReadLock then s.isRead && s.writers == multiset{}
      else
        && op == WriteLock && !s.isRead && s.wowner == Some(f) && s.readers == multiset{}
        && forall g :: g in s.writers ==> g == f
    case Uncounting => s.Holds(f)
    case Clearing => s.readers == multiset{} && s.writers == multiset{}
    case _ => true
  }

  /** Readers and a writer exclude each other, and the fields say who has locked. */
  ghost predicate FieldsOk(s: State) {
    && s.lockCount == |s.readers| + |s.writers| && s.lockCount <= INT_MAX
    && (s.readers == multiset{} || s.writers == multiset{})
    && (s.readers != multiset{} ==> s.isRead)
    && (forall g :: g in s.writers ==> s.wowner == Some(g) && !s.isRead)
    && (s.wowner.Some? ==>
          var g := s.wowner.value;
          g in s.writers || s.Pc(g) == Counting(WriteLock) || s.Pc(g) == Clearing)
  }

  ghost predicate Good(s: State) {
    && Inv(s.w)
    && (forall f: FiberId :: PositionOk(s, f) && KnowledgeOk(s, f))
    && FieldsOk(s)
  }

  /** Nobody uses the lock yet. */
  ghost predicate Start(s: State) {
    && Inv(s.w) && s.pc == map[] && s.readers == multiset{} && s.writers == multiset{}
    && s.lockCount == 0 && !s.isRead && s.wowner == None
  }

  lemma Parts(s: State, f: FiberId)
    requires Good(s)
    ensures Inv(s.w) && PositionOk(s, f) && KnowledgeOk(s, f) && FieldsOk(s)
  {
  }

  /** At most one fiber is inside, because at most one owns the internal mutex. */
  lemma OneInside(s: State, f: FiberId, g: FiberId)
    requires Good(s) && Inside(s.Pc(f)) && Inside(s.Pc(g))
    ensures f == g
  {
    Parts(s, f);
    Parts(s, g);
    hide Inv;
  }

  // ---- Steps of the runtime -----------------------------------------------------------------

  lemma RunningActs(w: World, x: Step, w': World, f: FiberId)
    requires Inv(w) && Next(w, x, w') && w.Ctl(f) == Running && Calls.Actor(w, x) == Some(f)
    ensures Calls.IsCall(x)
  {
    Calls.NotDispatched(w, x, f);
    hide Inv;
  }

  /** A running fiber that makes no call stays where it is, and keeps what it owns. */
  lemma RunningStays(w: World, x: Step, w': World, f: FiberId, m: MutexId)
    requires Inv(w) && Next(w, x, w') && w.Ctl(f) == Running && (Calls.IsCall(x) ==> x.f != f)
    ensures w'.Ctl(f) == Running && w'.Ret(f) == w.Ret(f)
    ensures w.Owns(f, m) ==> w'.Owns(f, m)
  {
    hide Inv, Next;
    if Calls.Actor(w, x) == Some(f) {
      RunningActs(w, x, w', f);
    }
    Calls.Undisturbed(w, x, w', f);
    if w.Owns(f, m) { Calls.StillOwner(w, x, w', f, m); }
  }

  /** Whatever happens in the runtime, a fiber that makes no new call stays at its statement. */
  lemma PositionStays(s: State, x: Step, s': State, g: FiberId)
    requires PositionOk(s, g) && Inv(s.w) && Inv(s'.w) && Next(s.w, x, s'.w)
    requires Calls.IsCall(x) ==> x.f != g
    requires s'.Pc(g) == s.Pc(g) && s'.m == s.m && (s'.Holds(g) <==> s.Holds(g))
    ensures PositionOk(s', g)
  {
    hide Inv, Next;
    if s.Runs(g) {
      RunningStays(s.w, x, s'.w, g, s.m);
    } else {
      match s.Pc(g)
      case Entering(op, mode) => Calls.LockGoesOn(s.w, x, s'.w, g, s.m, mode == Timed);
      case Blocked(_, _) => Calls.WaitGoesOn(s.w, x, s'.w, g, s.m);
      case Signalling => Calls.SignalGoesOn(s.w, x, s'.w, g, s.m);
      case _ =>
    }
  }

  // ---- Every move keeps the invariant -------------------------------------------------------

  /** The fields of the lock are as they were. */
  ghost predicate SameFields(s: State, s': State) {
    && s'.lockCount == s.lockCount && s'.isRead == s.isRead && s'.wowner == s.wowner
    && s'.readers == s.readers && s'.writers == s.writers && s'.m == s.m
  }

  /** Only `f` has moved, and if it has written a field it was inside. */
  ghost predicate Mover(s: State, s': State, f: FiberId) {
    && s'.m == s.m && (forall g: FiberId :: g != f ==> s'.Pc(g) == s.Pc(g) && (s'.Holds(g) <==> s.Holds(g)))
    && (SameFields(s, s') || Inside(s.Pc(f)))
  }

  lemma OtherKnows(s: State, s': State, f: FiberId, g: FiberId)
    requires Good(s) && Mover(s, s', f) && g != f
    ensures KnowledgeOk(s', g)
  {
    Parts(s, g);
    if Inside(s.Pc(f)) && Inside(s.Pc(g)) { OneInside(s, f, g); }
    hide Inv, Good, PositionOk;
  }

  /** A move that leaves the runtime alone. */
  lemma QuietMove(s: State, s': State, f: FiberId)
    requires Good(s) && Mover(s, s', f) && s'.w == s.w
    requires PositionOk(s', f) && KnowledgeOk(s', f) && FieldsOk(s')
    ensures Good(s')
  {
    hide Inv, KnowledgeOk, FieldsOk;
    forall g: FiberId ensures PositionOk(s', g) && KnowledgeOk(s', g) {
      if g != f {
        Parts(s, g);
        OtherKnows(s, s', f, g);
      }
    }
    Parts(s, f);
  }

  /** A call of `f` into the runtime. */
  lemma CallMove(s: State, x: Step, s': State, f: FiberId)
    requires Good(s) && Mover(s, s', f) && SameFields(s, s') && Next(s.w, x, s'.w) && Courteous(s.w, x)
    requires Calls.IsCall(x) && x.f == f
    requires PositionOk(s', f) && KnowledgeOk(s', f) && FieldsOk(s')
    ensures Good(s')
  {
    hide Inv, KnowledgeOk, FieldsOk, PositionOk, Next, Courteous;
    Parts(s, f);
    Safety.NextKeeps(s.w, x, s'.w);
    forall g: FiberId ensures PositionOk(s', g) && KnowledgeOk(s', g) {
      if g != f {
        Parts(s, g);
        OtherKnows(s, s', f, g);
        PositionStays(s, x, s', g);
      }
    }
  }

  lemma RuntimeKeeps(s: State, x: Step, s': State)
    requires Good(s) && Moves(s, Runtime(x), s')
    ensures Good(s')
  {
    hide Inv, FieldsOk, PositionOk, Next, Courteous;
    Parts(s, 0);
    Safety.NextKeeps(s.w, x, s'.w);
    forall g: FiberId ensures PositionOk(s', g) && KnowledgeOk(s', g) {
      Parts(s, g);
      if Calls.IsCall(x) && x.f == g {
        Idle(s', g);
      } else {
        PositionStays(s, x, s', g);
      }
    }
    SameFieldsOk(s, s');
  }

  lemma Idle(s: State, g: FiberId)
    requires s.Pc(g) == Outside
    ensures PositionOk(s, g)
  {
  }

  lemma SameFieldsOk(s: State, s': State)
    requires FieldsOk(s) && SameFields(s, s')
    requires forall g: FiberId :: s.Pc(g) == Counting(WriteLock) || s.Pc(g) == Clearing ==> s'.Pc(g) == s.Pc(g)
    ensures FieldsOk(s')
  {
  }

  lemma CallKeeps(s: State, f: FiberId, op: Op, mode: Mode, t: nat, s': State)
    requires Good(s) && Moves(s, Call(f, op, mode, t), s')
    ensures Good(s')
  {
    hide Inv, Next, FieldsOk;
    Parts(s, f);
    if mode == Timed {
      Calls.TimedlockCall(s.w, f, s.m, t, s'.w);
    } else {
      Calls.LockCall(s.w, f, s.m, s'.w);
    }
    SameFieldsOk(s, s');
    CallMove(s, if mode == Timed then Step.Timedlock(f, s.m, t) else Step.Lock(f, s.m), s', f);
  }

  lemma EnteredKeeps(s: State, f: FiberId, s': State)
    requires Good(s) && Moves(s, Entered(f), s')
    ensures Good(s')
  {
    hide Inv, FieldsOk;
    Parts(s, f);
    SameFieldsOk(s, s');
    QuietMove(s, s', f);
  }

  /** A fiber that finds the lock available knows that nobody holds it against the operation. */
  lemma MayClaim(s: State, f: FiberId, op: Op)
    requires FieldsOk(s) && s.Pc(f).Checking? && !s.MustWait(f, op) && op != Release
    ensures op == ReadLock ==> s.writers == multiset{}
    ensures op == WriteLock ==> s.readers == multiset{} && forall g :: g in s.writers ==> g == f
  {
    if s.lockCount <= 0 {
      assert s.readers == multiset{} && s.writers == multiset{};
    }
  }

  lemma CheckKeeps(s: State, f: FiberId, t: nat, s': State)
    requires Good(s) && Moves(s, Check(f, t), s')
    ensures Good(s')
  {
    hide Inv, FieldsOk, Next, Good, PositionOk, KnowledgeOk;
    if s.MustWait(f, s.Pc(f).op) && s.Pc(f).mode != Try {
      CheckWaits(s, f, t, s');
    } else {
      CheckPasses(s, f, t, s');
    }
  }

  /** The lock is available, or the call gives up. */
  lemma CheckPasses(s: State, f: FiberId, t: nat, s': State)
    requires Good(s) && Moves(s, Check(f, t), s') && (!s.MustWait(f, s.Pc(f).op) || s.Pc(f).mode == Try)
    ensures Good(s')
  {
    hide Inv, Good, FieldsOk, PositionOk, KnowledgeOk, Mover, SameFields, Moves;
    Parts(s, f);
    CheckMover(s, f, t, s');
    CheckKnows(s, f, t, s');
    if Inside(s'.Pc(f)) { StillInside(s, s', f); } else { Idle(s', f); }
    SameFieldsOk(s, s');
    QuietMove(s, s', f);
  }

  lemma CheckMover(s: State, f: FiberId, t: nat, s': State)
    requires Moves(s, Check(f, t), s') && (!s.MustWait(f, s.Pc(f).op) || s.Pc(f).mode == Try)
    ensures Mover(s, s', f) && SameFields(s, s') && s'.w == s.w && s.Runs(f) && Inside(s.Pc(f))
    ensures Inside(s'.Pc(f)) || s'.Pc(f) == Outside
    ensures forall g: FiberId :: s.Pc(g) == Counting(WriteLock) || s.Pc(g) == Clearing ==> s'.Pc(g) == s.Pc(g)
  {
  }

  lemma CheckKnows(s: State, f: FiberId, t: nat, s': State)
    requires Moves(s, Check(f, t), s') && (!s.MustWait(f, s.Pc(f).op) || s.Pc(f).mode == Try)
    requires FieldsOk(s) && KnowledgeOk(s, f)
    ensures KnowledgeOk(s', f)
  {
    hide FieldsOk;
    if !s.MustWait(f, s.Pc(f).op) { MayClaim(s, f, s.Pc(f).op); }
  }

  lemma CheckWaits(s: State, f: FiberId, t: nat, s': State)
    requires Good(s) && Moves(s, Check(f, t), s') && s.MustWait(f, s.Pc(f).op) && s.Pc(f).mode != Try
    ensures Good(s')
  {
    hide Inv, FieldsOk, Next;
    Parts(s, f);
    SameFieldsOk(s, s');
    var Checking(op, mode) := s.Pc(f);
    Calls.WaitCall(s.w, f, s.Cond(op), s.m, t, s'.w);
    CallMove(s, if mode == Timed then CondTimedwait(f, s.Cond(op), s.m, t) else CondWait(f, s.Cond(op), s.m), s', f);
  }

  lemma WokenKeeps(s: State, f: FiberId, s': State)
    requires Good(s) && Moves(s, Woken(f), s')
    ensures Good(s')
  {
    hide Inv, FieldsOk;
    Parts(s, f);
    WaitIsOver(s, f);
    SameFieldsOk(s, s');
    QuietMove(s, s', f);
  }

  lemma WaitIsOver(s: State, f: FiberId)
    requires PositionOk(s, f) && s.Pc(f).Blocked? && s.Runs(f)
    ensures s.w.Owns(f, s.m)
  {
  }

  lemma ClaimKeeps(s: State, f: FiberId, s': State)
    requires Good(s) && Moves(s, Move.Claim(f), s')
    ensures Good(s')
  {
    hide Inv;
    Parts(s, f);
    ClaimFields(s, f, s');
    hide FieldsOk;
    QuietMove(s, s', f);
  }

  lemma ClaimFields(s: State, f: FiberId, s': State)
    requires Moves(s, Move.Claim(f), s') && FieldsOk(s) && KnowledgeOk(s, f)
    ensures FieldsOk(s')
  {
    assert s.Pc(f).op == ReadLock && s.wowner.Some? ==> s.wowner.value != f;
  }

  lemma CountKeeps(s: State, f: FiberId, s': State)
    requires Good(s) && Moves(s, Count(f), s')
    ensures Good(s')
  {
    hide Inv, Good, FieldsOk, PositionOk, KnowledgeOk, Mover;
    Parts(s, f);
    CountFields(s, f, s');
    CountMover(s, f, s');
    StillInside(s, s', f);
    QuietMove(s, s', f);
  }

  lemma CountMover(s: State, f: FiberId, s': State)
    requires Moves(s, Count(f), s')
    ensures Mover(s, s', f) && KnowledgeOk(s', f)
  {
  }

  lemma CountFields(s: State, f: FiberId, s': State)
    requires Moves(s, Count(f), s') && FieldsOk(s) && KnowledgeOk(s, f)
    ensures FieldsOk(s')
  {
    if s.Pc(f).op == ReadLock && s.wowner.Some? {
      assert s.wowner.value !in s.writers;
    }
  }

  lemma UncountKeeps(s: State, f: FiberId, s': State)
    requires Good(s) && Moves(s, Uncount(f), s')
    ensures Good(s')
  {
    hide Inv, Good, FieldsOk, PositionOk, KnowledgeOk, Mover;
    Parts(s, f);
    if f in s.readers { UncountReader(s, f, s'); } else { UncountWriter(s, f, s'); }
    UncountMover(s, f, s');
    StillInside(s, s', f);
    QuietMove(s, s', f);
  }

  lemma UncountMover(s: State, f: FiberId, s': State)
    requires Moves(s, Uncount(f), s')
    ensures Mover(s, s', f)
  {
  }

  lemma UncountReader(s: State, f: FiberId, s': State)
    requires Moves(s, Uncount(f), s') && FieldsOk(s) && f in s.readers
    ensures FieldsOk(s') && KnowledgeOk(s', f)
  {
    assert |s'.readers| == |s.readers| - 1 && s'.writers == s.writers == multiset{};
    if s.wowner.Some? { assert s.wowner.value != f; }
  }

  lemma UncountWriter(s: State, f: FiberId, s': State)
    requires Moves(s, Uncount(f), s') && FieldsOk(s) && KnowledgeOk(s, f) && f !in s.readers
    ensures FieldsOk(s') && KnowledgeOk(s', f)
  {
    OneWriter(s, f);
    assert s'.readers == multiset{} && |s'.writers| == |s.writers| - 1;
    assert s'.writers != multiset{} ==> |s'.writers| > 0;
  }

  /** A writer holds the lock alone. */
  lemma OneWriter(s: State, f: FiberId)
    requires FieldsOk(s) && f in s.writers
    ensures s.readers == multiset{} && s.wowner == Some(f)
    ensures s.writers - multiset{f} != multiset{} ==> f in s.writers - multiset{f}
  {
    var rest := s.writers - multiset{f};
    if rest != multiset{} {
      var g :| g in rest;
      assert g in s.writers;
    }
  }

  lemma ClearKeeps(s: State, f: FiberId, s': State)
    requires Good(s) && Moves(s, Clear(f), s')
    ensures Good(s')
  {
    hide Inv, PositionOk;
    Parts(s, f);
    assert FieldsOk(s');
    hide FieldsOk;
    assert PositionOk(s', f) by { StillInside(s, s', f); }
    QuietMove(s, s', f);
  }

  lemma StillInside(s: State, s': State, f: FiberId)
    requires PositionOk(s, f) && Inside(s.Pc(f)) && s.Runs(f) && s'.w == s.w && s'.m == s.m && Inside(s'.Pc(f))
    ensures PositionOk(s', f)
  {
  }

  lemma SignallerBegins(s: State, f: FiberId, s': State)
    requires Moves(s, Signal(f), s') && PositionOk(s, f) && KnowledgeOk(s, f)
    ensures PositionOk(s', f) && KnowledgeOk(s', f) && Mover(s, s', f) && SameFields(s, s')
  {
  }

  lemma SignalKeeps(s: State, f: FiberId, s': State)
    requires Good(s) && Moves(s, Signal(f), s')
    ensures Good(s')
  {
    hide Inv, FieldsOk, Next;
    Parts(s, f);
    SignallerBegins(s, f, s');
    SameFieldsOk(s, s');
    CallMove(s, SignalBegin(f, s.wcond, 1), s', f);
  }

  lemma SignalledKeeps(s: State, f: FiberId, s': State)
    requires Good(s) && Moves(s, Signalled(f), s')
    ensures Good(s')
  {
    hide Inv, FieldsOk;
    Parts(s, f);
    SameFieldsOk(s, s');
    QuietMove(s, s', f);
  }

  lemma UnlockKeeps(s: State, f: FiberId, s': State)
    requires Good(s) && Moves(s, Move.Unlock(f), s')
    ensures Good(s')
  {
    hide Inv, FieldsOk, Next;
    Parts(s, f);
    SameFieldsOk(s, s');
    CallMove(s, Step.Unlock(f, s.m), s', f);
  }

  lemma ReturnKeeps(s: State, f: FiberId, s': State)
    requires Good(s) && Moves(s, Return(f), s')
    ensures Good(s')
  {
    hide Inv, FieldsOk;
    Parts(s, f);
    SameFieldsOk(s, s');
    QuietMove(s, s', f);
  }

  lemma MoveKeeps(s: State, v: Move, s': State)
    requires Good(s) && Moves(s, v, s')
    ensures Good(s')
  {
    hide Good, Moves;
    match v
    case Call(f, op, mode, t) => CallKeeps(s, f, op, mode, t, s');
    case Entered(f) => EnteredKeeps(s, f, s');
    case Check(f, t) => CheckKeeps(s, f, t, s');
    case Woken(f) => WokenKeeps(s, f, s');
    case Claim(f) => ClaimKeeps(s, f, s');
    case Count(f) => CountKeeps(s, f, s');
    case Uncount(f) => UncountKeeps(s, f, s');
    case Clear(f) => ClearKeeps(s, f, s');
    case Signal(f) => SignalKeeps(s, f, s');
    case Signalled(f) => SignalledKeeps(s, f, s');
    case Unlock(f) => UnlockKeeps(s, f, s');
    case Return(f) => ReturnKeeps(s, f, s');
    case Runtime(x) => RuntimeKeeps(s, x, s');
  }

  // ---- The promise over runs ----------------------------------------------------------------

  ghost predicate Run(ss: seq<State>, moves: seq<Move>) {
    && |ss| == |moves| + 1 && Start(ss[0])
    && forall i :: 0 <= i < |moves| ==> Moves(ss[i], moves[i], ss[i + 1])
  }

  lemma StartIsGood(s: State)
    requires Start(s)
    ensures Good(s)
  {
  }

  lemma {:induction false} RunIsGood(ss: seq<State>, moves: seq<Move>, i: nat)
    requires Run(ss, moves) && i < |ss|
    ensures Good(ss[i])
  {
    hide Good, Moves, Start;
    if i == 0 {
      StartIsGood(ss[0]);
    } else {
      RunIsGood(ss, moves, i - 1);
      MoveKeeps(ss[i - 1], moves[i - 1], ss[i]);
    }
  }

  /** In every state of every run: readers and a writer never hold the lock together, at most one fiber
      holds it for writing, the count is the number of read holds or the writer's depth, and, unless a
      fiber is between two writes to the fields, `wowner` names the writer exactly if there is one. */
  lemma Exclusion(ss: seq<State>, moves: seq<Move>, i: nat)
    requires Run(ss, moves) && i < |ss|
    ensures
      var s := ss[i];
      && (s.readers == multiset{} || s.writers == multiset{})
      && (forall f, g :: f in s.writers && g in s.writers ==> f == g)
      && s.lockCount == (if s.writers == multiset{} then |s.readers| else |s.writers|) && s.lockCount <= INT_MAX
      && (s.readers != multiset{} ==> s.isRead) && (s.writers != multiset{} ==> !s.isRead)
      && ((forall f: FiberId :: s.Pc(f) != Counting(WriteLock) && s.Pc(f) != Clearing) ==>
            forall f: FiberId :: s.wowner == Some(f) <==> f in s.writers)
  {
    RunIsGood(ss, moves, i);
    Parts(ss[i], 0);
    hide Run, Good, Inv, PositionOk, KnowledgeOk;
    var s := ss[i];
    if s.writers != multiset{} {
      var g :| g in s.writers;
    }
  }

  /** Two fibers are never inside together: nobody reads or writes a field that another is about to. */
  lemma FieldsAreGuarded(ss: seq<State>, moves: seq<Move>, i: nat, f: FiberId, g: FiberId)
    requires Run(ss, moves) && i < |ss| && Inside(ss[i].Pc(f)) && Inside(ss[i].Pc(g))
    ensures f == g && ss[i].w.Owns(f, ss[i].m)
  {
    RunIsGood(ss, moves, i);
    OneInside(ss[i], f, g);
    Parts(ss[i], f);
    hide Run, Good, Inv;
  }
}

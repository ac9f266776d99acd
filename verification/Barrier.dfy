/** src/barrier.c: a team of fibers that loops on melon_barrier_wait.  Between its waits a member does what it
    likes, and so does every other fiber, as long as it leaves the barrier's mutex and condition alone. */
module Barrier {
  import opened Memory
  import opened Machine
  import opened Invariant
  import Safety
  import Outcomes

  /** The next statement of melon_barrier_wait, or outside of it. */
  datatype Pc = Outside | Arriving | ToBroadcast | ToWait | Leaving | ToUnlock | Returning

  /** `arrivals` and `exits` count, for each fiber, its decrements and its returns; `phase` counts
      the decrements to 0, and `last` is the fiber that is broadcasting. */
  datatype State = State(
    w: World,
    team: set<FiberId>,
    m: MutexId,
    c: CondId,
    count: int,
    pc: map<FiberId, Pc>,
    arrivals: map<FiberId, nat>,
    exits: map<FiberId, nat>,
    phase: nat,
    last: Option<FiberId>)
  {
    function Pc(f: FiberId): Pc {
      if f in pc then pc[f] else Outside
    }

    function Arr(f: FiberId): nat {
      if f in arrivals then arrivals[f] else 0
    }

    function Ret(f: FiberId): nat {
      if f in exits then exits[f] else 0
    }

    function Ctl(f: FiberId): Control { w.Ctl(f) }

    predicate Owns(f: FiberId) { w.Owns(f, m) }

    function Q(): seq<FiberId> { w.mem.M(m).lockQueue }

    /** In the barrier, past the decrement and before the increment. */
    predicate Arrived(f: FiberId) {
      Pc(f) == ToBroadcast || Pc(f) == ToWait || Pc(f) == Leaving
    }

    function Inside(): set<FiberId> {
      set f | f in team && Arrived(f)
    }

    /** Arrived in a phase that is over, or in the one that is being gathered. */
    predicate Released(f: FiberId) { Arrived(f) && Arr(f) == phase }

    predicate Gathered(f: FiberId) { Arrived(f) && Arr(f) == phase + 1 }

    predicate Broadcasting(f: FiberId) { Pc(f) == ToBroadcast || (Pc(f) == Leaving && Ctl(f).SignalLoop?) }

    /** The members of the team that are in melon_barrier_wait. */
    function Busy(): set<FiberId> {
      set f | f in team && Pc(f) != Outside
    }

    function At(f: FiberId, p: Pc): State { this.(pc := pc[f := p]) }
  }

  datatype Move =
    | CallLock(f: FiberId)
    | Decrement(f: FiberId)
    | CallBroadcast(f: FiberId)
    | CallWait(f: FiberId)
    | Increment(f: FiberId)
    | CallUnlock(f: FiberId)
    | Return(f: FiberId)
    | Continue(s: Step)
    | Elsewhere(s: Step)

  const TWO_32: int := 0x1_0000_0000

  /** A step inside a call that a fiber in the barrier has made. */
  predicate Continues(w: World, team: set<FiberId>, s: Step) {
    || ((s.UnlockFast? || s.UnlockHandoff? || s.CondRelease? || s.SignalOne? || s.SignalEnd?) && s.f in team)
    || (s.Dispatch? && w.mem.ready != [] && w.mem.ready[0] in team)
  }

  /** A step of anybody who is not in the barrier, that does not name its mutex or condition. */
  predicate Foreign(w: World, team: set<FiberId>, m: MutexId, c: CondId, s: Step) {
    match s
    case Dispatch => w.mem.ready != [] && w.mem.ready[0] !in team
    case Lock(f, n) => f !in team && n != m
    case Trylock(f, n) => f !in team && n != m
    case Timedlock(f, n, _) => f !in team && n != m
    case Unlock(f, n) => f !in team && n != m
    case CondWait(f, d, n) => f !in team && n != m && d != c
    case CondTimedwait(f, d, n, _) => f !in team && n != m && d != c
    case SignalBegin(f, d, _) => f !in team && d != c
    case Deliver(_, _) => true
    case Handle(_) => true
    case RawClose(_) => true
    case Fire(_) => true
    case TimerSleep(_) => true
    case TimerWake => true
    case _ => s.f !in team
  }

  /** One statement of melon_barrier_wait, or a step of the runtime. */
  ghost predicate Moves(s: State, v: Move, s': State) {
    match v
    case CallLock(f) =>
      && f in s.team && s.Pc(f) == Outside && s.Ctl(f) == Running
      && Next(s.w, Lock(f, s.m), s'.w) && s' == s.At(f, Arriving).(w := s'.w)
    case Decrement(f) =>
      && f in s.team && s.Pc(f) == Arriving && s.Ctl(f) == Running
      && var count := (s.count - 1) % TWO_32;
         s' == s.At(f, if count == 0 then ToBroadcast else ToWait).(
           count := count,
           arrivals := s.arrivals[f := s.Arr(f) + 1],
           phase := if count == 0 then s.phase + 1 else s.phase,
           last := if count == 0 then Some(f) else s.last)
    case CallBroadcast(f) =>
      && f in s.team && s.Pc(f) == ToBroadcast
      && Next(s.w, SignalBegin(f, s.c, 0), s'.w) && s' == s.At(f, Leaving).(w := s'.w)
    case CallWait(f) =>
      && f in s.team && s.Pc(f) == ToWait
      && Next(s.w, CondWait(f, s.c, s.m), s'.w) && s' == s.At(f, Leaving).(w := s'.w)
    case Increment(f) =>
      && f in s.team && s.Pc(f) == Leaving && s.Ctl(f) == Running
      && s' == s.At(f, ToUnlock).(count := (s.count + 1) % TWO_32)
    case CallUnlock(f) =>
      && f in s.team && s.Pc(f) == ToUnlock
      && Next(s.w, Unlock(f, s.m), s'.w) && s' == s.At(f, Returning).(w := s'.w)
    case Return(f) =>
      && f in s.team && s.Pc(f) == Returning && s.Ctl(f) == Running
      && s' == s.At(f, Outside).(exits := s.exits[f := s.Ret(f) + 1])
    case Continue(x) =>
      && Continues(s.w, s.Busy(), x) && Courteous(s.w, x) && Next(s.w, x, s'.w)
      && s' == s.(w := s'.w, last := if x.SignalEnd? then None else s.last)
    case Elsewhere(x) =>
      && Foreign(s.w, s.Busy(), s.m, s.c, x) && Courteous(s.w, x) && Next(s.w, x, s'.w)
      && s' == s.(w := s'.w)
  }

  /** The mutex and the condition that a position in the code refers to. */
  predicate Mentions(ctl: Control, m: MutexId, c: CondId) {
    match ctl
    case Runnable(FromLock(n)) => n == m
    case Runnable(FromTimedlock(n, _, _)) => n == m
    case Runnable(FromCond(d, n, _, _)) => n == m || d == c
    case RetryTimedlock(n, _) => n == m
    case Locking(n, how) => n == m || (how.ByCond? && how.cond == c)
    case Unlocking(n, _) => n == m
    case Waiting(d, n, _, _, _) => n == m || d == c
    case SignalLoop(d, _, _, _) => d == c
    case _ => false
  }

  // ---- The invariant ------------------------------------------------------------------------

  /** Where a member of the team can be in the runtime, at each statement. */
  ghost predicate PositionOk(s: State, f: FiberId) {
    var ctl := s.Ctl(f);
    match s.Pc(f)
    case Outside => !Mentions(ctl, s.m, s.c) && !s.Owns(f)
    case Arriving => (ctl == Running && s.Owns(f)) || ctl == Locking(s.m, ByLock) || ctl == Runnable(FromLock(s.m))
    case ToBroadcast => ctl == Running && s.Owns(f)
    case ToWait => ctl == Running && s.Owns(f)
    case Leaving =>
      || (ctl == Running && s.Owns(f))
      || (ctl.SignalLoop? && ctl.cond == s.c && ctl.nb == 0 && s.Owns(f))
      || (ctl.Waiting? && ctl == Waiting(s.c, s.m, false, ctl.release, false) && s.w.mem.F(f).lockCount == 1)
      || ctl == Locking(s.m, ByCond(s.c, false, false))
      || ctl == Runnable(FromCond(s.c, s.m, false, false))
    case ToUnlock => ctl == Running && s.Owns(f)
    case Returning => (ctl == Running && !s.Owns(f)) || ctl == Unlocking(s.m, false) || ctl == Unlocking(s.m, true)
  }

  /** How far a member of the team has got, relative to the phase. */
  ghost predicate ProgressOk(s: State, f: FiberId) {
    && (!s.Arrived(f) ==> s.Arr(f) == s.phase)
    && (s.Arrived(f) ==> s.Arr(f) == s.phase || s.Arr(f) == s.phase + 1)
    && s.Ret(f) + (if s.Pc(f) == Outside || s.Pc(f) == Arriving then 0 else 1) == s.Arr(f)
    && (s.Pc(f) == ToBroadcast ==> s.Released(f))
    && (s.Pc(f) == ToWait ==> s.Gathered(f))
    && (s.Gathered(f) ==> s.Pc(f) == ToWait || s.Ctl(f).Waiting?)
    && (s.Released(f) && s.Ctl(f).Waiting? ==> s.last.Some?)
    && (s.Owns(f) && s.Pc(f) == Arriving ==> NoneReleased(s))
    && (s.Broadcasting(f) ==> s.last == Some(f))
  }

  ghost predicate NoneReleased(s: State) {
    forall g :: g in s.team ==> !s.Released(g)
  }

  ghost predicate NoneGathered(s: State) {
    forall g :: g in s.team ==> !s.Gathered(g)
  }

  /** In the lock queue, fibers that leave the barrier stand before fibers that come back to it. */
  ghost predicate LeaversFirst(s: State) {
    forall i, j :: 0 <= i < j < |s.Q()| && s.Arrived(s.Q()[j]) ==> s.Arrived(s.Q()[i])
  }

  /** Outside the team, nobody refers to the barrier's mutex and condition. */
  ghost predicate Private(s: State) {
    && (forall x: FiberId :: x !in s.team ==> !Mentions(s.w.Ctl(x), s.m, s.c))
    && (s.w.mem.M(s.m).owner.Some? ==> s.w.mem.M(s.m).owner.value in s.team)
    && s.w.mem.M(s.m).lockCount <= 1
  }

  ghost predicate TeamOk(s: State) {
    forall f :: f in s.team ==> PositionOk(s, f) && ProgressOk(s, f)
  }

  /** While a fiber broadcasts, the whole team is inside. */
  ghost predicate LastOk(s: State) {
    s.last.Some? ==> s.last.value in s.team && s.Broadcasting(s.last.value) && s.Inside() == s.team
  }

  ghost predicate CountOk(s: State) {
    s.count == |s.team| - |s.Inside()| && 0 < |s.team| < TWO_32
  }

  ghost predicate Good(s: State) {
    && Inv(s.w)
    && Private(s)
    && TeamOk(s)
    && (NoneReleased(s) || NoneGathered(s))
    && LeaversFirst(s)
    && LastOk(s)
    && CountOk(s)
  }

  /** Nobody is in the barrier, whose mutex is free, and the count is the team's size.  The fibers of the
      team need not have started. */
  ghost predicate Start(s: State) {
    && Inv(s.w) && 0 < |s.team| < TWO_32 && s.count == |s.team|
    && (forall f :: f in s.team ==> s.Pc(f) == Outside && s.Arr(f) == 0 && s.Ret(f) == 0)
    && s.phase == 0 && s.last == None
    && (forall x: FiberId :: !Mentions(s.w.Ctl(x), s.m, s.c))
    && s.w.mem.M(s.m).owner == None
  }

  /** The runtime as it begins is a start, for any team. */
  lemma InitIsStart(w: World, team: set<FiberId>, m: MutexId, c: CondId)
    requires Init(w) && 0 < |team| < TWO_32
    ensures Start(State(w, team, m, c, |team|, map[], map[], map[], 0, None))
  {
    Safety.InitInv(w);
    forall x: FiberId ensures !Mentions(w.Ctl(x), m, c) { assert w.Ctl(x) == NotStarted; }
    assert w.mem.M(m) == FRESH_MUTEX.(isRecursive := w.mem.M(m).isRecursive);
    hide Inv;
  }

  lemma StartIsGood(s: State)
    requires Start(s)
    ensures Good(s)
  {
    MutexPart(s.w, s.m);
    assert s.Inside() == {};
  }

  // ---- Consequences used by the steps -------------------------------------------------------

  /** A fiber that still has to leave the barrier keeps the mutex owned. */
  lemma ReleasedNeedsOwner(s: State, g: FiberId)
    requires Good(s) && g in s.team && s.Released(g)
    ensures s.w.mem.M(s.m).owner.Some?
  {
    assert PositionOk(s, g) && ProgressOk(s, g);
    FiberPart(s.w, g);
    MutexPart(s.w, s.m);
    Outcomes.QueueMembership(s.w, g, LockQueue(s.m));
    if s.last.Some? {
      assert PositionOk(s, s.last.value);
    }
    hide Inv;
  }

  lemma QueueInTeam(s: State, f: FiberId)
    requires Good(s) && f in s.Q()
    ensures f in s.team && (s.Ctl(f) == Locking(s.m, ByLock) || s.Ctl(f) == Locking(s.m, ByCond(s.c, false, false)))
    ensures s.Arrived(f) <==> s.Ctl(f).how.ByCond?
    ensures f in s.Busy()
  {
    Outcomes.QueueMembership(s.w, f, LockQueue(s.m));
    assert !Mentions(s.w.Ctl(f), s.m, s.c) || f in s.team;
    assert f in s.team ==> PositionOk(s, f);
    hide Inv;
  }

  /** Nothing about the team changes but the positions of `f` and `g`. */
  ghost predicate TeamKept(s: State, s': State, f: FiberId, g: FiberId) {
    && s'.team == s.team && s'.m == s.m && s'.c == s.c
    && (forall h :: h in s.team && h != f && h != g ==>
          && s'.Ctl(h) == s.Ctl(h) && (s'.Owns(h) <==> s.Owns(h))
          && s'.w.mem.F(h).lockCount == s.w.mem.F(h).lockCount)
    && (forall x: FiberId :: x !in s.team ==> !Mentions(s'.w.Ctl(x), s.m, s.c))
  }

  /** Only `f` moves in the barrier, and it does not pass the decrement or the increment. */
  ghost predicate SameLedger(s: State, s': State, f: FiberId) {
    && s'.team == s.team && s'.count == s.count && s'.arrivals == s.arrivals && s'.phase == s.phase
    && (forall g :: g in s.team && g != f ==> s'.Pc(g) == s.Pc(g) && s'.Ret(g) == s.Ret(g))
    && (s'.Arrived(f) <==> s.Arrived(f))
  }

  lemma LedgerFacts(s: State, s': State, f: FiberId)
    requires SameLedger(s, s', f)
    ensures s'.Inside() == s.Inside()
    ensures forall g :: g in s.team ==> (s'.Released(g) <==> s.Released(g)) && (s'.Gathered(g) <==> s.Gathered(g))
    ensures NoneReleased(s') <==> NoneReleased(s)
    ensures NoneGathered(s') <==> NoneGathered(s)
    ensures CountOk(s) ==> CountOk(s')
  {
    forall g | g in s.team ensures s'.Arrived(g) <==> s.Arrived(g) { assert g != f ==> s'.Pc(g) == s.Pc(g); }
  }

  /** The other members of the team are where they were. */
  lemma OthersKept(s: State, s': State, f: FiberId, g: FiberId, h: FiberId)
    requires TeamKept(s, s', f, g) && SameLedger(s, s', f) && s'.last == s.last
    requires h in s.team && h != f && h != g && PositionOk(s, h) && ProgressOk(s, h)
    ensures PositionOk(s', h) && ProgressOk(s', h)
  {
    LedgerFacts(s, s', f);
  }

  /** A step that moves only `f` and `g`, and nobody past the decrement or the increment. */
  lemma Reassemble(s: State, s': State, f: FiberId, g: FiberId)
    requires Good(s) && Inv(s'.w)
    requires TeamKept(s, s', f, g) && SameLedger(s, s', f) && s'.last == s.last
    requires f in s.team ==> PositionOk(s', f) && ProgressOk(s', f)
    requires g in s.team ==> PositionOk(s', g) && ProgressOk(s', g)
    requires s.last.Some? && (s.last.value == f || s.last.value == g) ==> s'.Broadcasting(s.last.value)
    requires s'.w.mem.M(s.m).owner.Some? ==> s'.w.mem.M(s.m).owner.value in s.team
    requires s'.w.mem.M(s.m).lockCount <= 1
    requires LeaversFirst(s')
    ensures Good(s')
  {
    hide Inv, PositionOk, ProgressOk, LeaversFirst;
    LedgerFacts(s, s', f);
    forall h | h in s.team ensures PositionOk(s', h) && ProgressOk(s', h) {
      if h != f && h != g { OthersKept(s, s', f, g, h); }
    }
  }

  lemma TeamPart(s: State, f: FiberId)
    requires Good(s) && f in s.team
    ensures PositionOk(s, f) && ProgressOk(s, f)
  {
  }

  lemma RuntimePart(s: State)
    requires Good(s)
    ensures Inv(s.w) && Private(s)
  {
  }

  lemma SameQueue(s: State, s': State, f: FiberId)
    requires Good(s) && SameLedger(s, s', f) && s'.Q() == s.Q()
    ensures LeaversFirst(s')
  {
    forall i | 0 <= i < |s.Q()| ensures s'.Arrived(s.Q()[i]) <==> s.Arrived(s.Q()[i]) {
      QueueInTeam(s, s.Q()[i]);
      assert s.Q()[i] != f ==> s'.Pc(s.Q()[i]) == s.Pc(s.Q()[i]);
    }
    hide Inv;
  }

  /** An arrival at the end keeps the order: it is a fiber that comes in, or all that wait leave. */
  lemma LongerQueue(s: State, s': State, f: FiberId, x: FiberId)
    requires Good(s) && SameLedger(s, s', f) && s'.Q() == s.Q() + [x]
    requires !s'.Arrived(x) || (forall g :: g in s.team ==> s.Arrived(g))
    ensures LeaversFirst(s')
  {
    forall i | 0 <= i < |s.Q()| ensures s.Q()[i] in s.team && (s'.Arrived(s.Q()[i]) <==> s.Arrived(s.Q()[i])) {
      QueueInTeam(s, s.Q()[i]);
      assert s.Q()[i] != f ==> s'.Pc(s.Q()[i]) == s.Pc(s.Q()[i]);
    }
    hide Inv;
  }

  lemma ShorterQueue(s: State, s': State, f: FiberId)
    requires Good(s) && SameLedger(s, s', f) && s.Q() != [] && s'.Q() == s.Q()[1..]
    ensures LeaversFirst(s')
  {
    forall i | 0 <= i < |s.Q()| ensures s'.Arrived(s.Q()[i]) <==> s.Arrived(s.Q()[i]) {
      QueueInTeam(s, s.Q()[i]);
      assert s.Q()[i] != f ==> s'.Pc(s.Q()[i]) == s.Pc(s.Q()[i]);
    }
    hide Inv;
    forall i, j | 0 <= i < j < |s'.Q()| && s'.Arrived(s'.Q()[j]) ensures s'.Arrived(s'.Q()[i]) {
      assert s'.Q()[i] == s.Q()[i + 1] && s'.Q()[j] == s.Q()[j + 1];
    }
  }

  /** A member of the team that runs and owns the mutex owns it once. */
  lemma RunningOwnsOnce(s: State, f: FiberId)
    requires Good(s) && f in s.team && s.Owns(f) && s.Ctl(f) == Running
    ensures s.w.mem.M(s.m).lockCount == 1
  {
    MutexPart(s.w, s.m);
    hide Inv;
  }

  // ---- melon_barrier_wait takes the lock ----------------------------------------------------

  lemma CallLockEffect(s: State, f: FiberId, s': State)
    requires Private(s) && f in s.team && Moves(s, CallLock(f), s') && !s.Owns(f)
    ensures TeamKept(s, s', f, f)
    ensures s.w.mem.M(s.m).owner == None ==>
              s'.Ctl(f) == Running && s'.w.mem.M(s.m) == s.w.mem.M(s.m).(owner := Some(f), lockCount := 1)
    ensures s.w.mem.M(s.m).owner.Some? ==>
              s'.Ctl(f) == Locking(s.m, ByLock)
              && s'.w.mem.M(s.m) == s.w.mem.M(s.m).(lockQueue := s.Q() + [f])
  {
  }

  /** Whoever takes a free mutex finds nobody still leaving. */
  lemma FreeMeansNoneReleased(s: State)
    requires Good(s) && s.w.mem.M(s.m).owner == None
    ensures NoneReleased(s)
  {
    forall g | g in s.team ensures !s.Released(g) {
      if s.Released(g) { ReleasedNeedsOwner(s, g); }
    }
  }

  lemma CallLockSelf(s: State, f: FiberId, s': State)
    requires Moves(s, CallLock(f), s') && PositionOk(s, f) && ProgressOk(s, f)
    requires (s'.Ctl(f) == Running && s'.Owns(f) && NoneReleased(s'))
        || (s'.Ctl(f) == Locking(s.m, ByLock) && !s'.Owns(f))
    ensures PositionOk(s', f) && ProgressOk(s', f)
  {
  }

  lemma CallLockKeeps(s: State, f: FiberId, s': State)
    requires Good(s) && Moves(s, CallLock(f), s')
    ensures Good(s')
  {
    hide Inv, Next, Good, PositionOk, NoneReleased, NoneGathered, LeaversFirst;
    RuntimePart(s);
    TeamPart(s, f);
    LastNotOutside(s, f);
    Safety.NextKeeps(s.w, Lock(f, s.m), s'.w);
    OutsideOwnsNot(s, f);
    CallLockEffect(s, f, s');
    assert SameLedger(s, s', f);
    LedgerFacts(s, s', f);
    if s.w.mem.M(s.m).owner == None {
      FreeMeansNoneReleased(s);
      SameQueue(s, s', f);
    } else {
      LongerQueue(s, s', f, f);
    }
    CallLockSelf(s, f, s');
    Reassemble(s, s', f, f);
  }

  lemma OutsideOwnsNot(s: State, f: FiberId)
    requires PositionOk(s, f) && s.Pc(f) == Outside
    ensures !s.Owns(f)
  {
  }

  lemma LastNotOutside(s: State, f: FiberId)
    requires Good(s) && f in s.team && !s.Arrived(f)
    ensures s.last == None
  {
    hide Inv;
    assert f !in s.Inside();
  }

  // ---- The decrement and the increment ------------------------------------------------------

  lemma InsideGrows(s: State, s': State, f: FiberId)
    requires f in s.team && !s.Arrived(f) && s'.Arrived(f) && s'.team == s.team
    requires forall g :: g != f ==> s'.Pc(g) == s.Pc(g)
    ensures s'.Inside() == s.Inside() + {f} && |s'.Inside()| == |s.Inside()| + 1
    ensures |s'.Inside()| <= |s.team|
    ensures |s'.Inside()| == |s.team| ==> s'.Inside() == s.team
  {
    forall g ensures g in s'.Inside() <==> g in s.Inside() + {f} { assert g != f ==> s'.Pc(g) == s.Pc(g); }
    assert s'.Inside() == s.Inside() + {f};
    SubsetSize(s'.Inside(), s.team);
  }

  lemma {:induction false} SubsetSize(a: set<FiberId>, b: set<FiberId>)
    requires a <= b
    ensures |a| <= |b|
    ensures |a| == |b| ==> a == b
  {
    if a != {} {
      var x :| x in a;
      SubsetSize(a - {x}, b - {x});
    }
  }

  lemma DecrementMember(s: State, f: FiberId, s': State, g: FiberId)
    requires Moves(s, Decrement(f), s') && PositionOk(s, f) && ProgressOk(s, f)
    requires g in s.team && PositionOk(s, g) && ProgressOk(s, g)
    requires s.last == None && s.count == |s.team| - |s.Inside()| && |s.team| < TWO_32
    requires |s.Inside()| < |s.team|
    requires s.count == 1 ==> forall h :: h in s.team && h != f ==> s.Arrived(h)
    ensures PositionOk(s', g) && ProgressOk(s', g)
    ensures s.count == 1 ==> !s'.Gathered(g)
    ensures s.count != 1 ==> !s'.Released(g)
  {
    assert s.Owns(f) && NoneReleased(s);
    assert !s.Released(g);
  }

  /** A member that runs is not in the queue, so the order there is what it was. */
  lemma StillQueued(s: State, s': State, f: FiberId)
    requires Good(s) && s.Ctl(f) == Running && s'.w == s.w && s'.m == s.m
    requires forall g :: g != f ==> s'.Pc(g) == s.Pc(g)
    ensures LeaversFirst(s')
  {
    var q := s.Q();
    forall i | 0 <= i < |q| ensures s'.Arrived(q[i]) <==> s.Arrived(q[i]) {
      QueueInTeam(s, q[i]);
      assert s'.Pc(q[i]) == s.Pc(q[i]);
    }
    assert LeaversFirst(s);
    hide Inv, Good;
    assert s'.Q() == q;
    forall i, j | 0 <= i < j < |q| && s'.Arrived(q[j]) ensures s'.Arrived(q[i]) {
      assert s.Arrived(q[j]);
    }
  }

  lemma DecrementQueue(s: State, f: FiberId, s': State)
    requires Good(s) && Moves(s, Decrement(f), s')
    ensures LeaversFirst(s')
  {
    StillQueued(s, s', f);
  }

  lemma CountPart(s: State)
    requires Good(s)
    ensures CountOk(s)
  {
  }

  /** The decrement reaches 0 exactly if all the others have arrived. */
  lemma DecrementKeeps(s: State, f: FiberId, s': State)
    requires Good(s) && Moves(s, Decrement(f), s')
    ensures Good(s')
    ensures s'.count == 0 <==> s'.Inside() == s.team
  {
    hide Inv, Good, PositionOk, ProgressOk, LeaversFirst;
    RuntimePart(s);
    TeamPart(s, f);
    CountPart(s);
    LastNotOutside(s, f);
    InsideGrows(s, s', f);
    if s.count == 1 {
      forall h | h in s.team && h != f ensures s.Arrived(h) { assert h in s'.Inside(); }
    }
    DecrementQueue(s, f, s');
    forall g | g in s.team
      ensures PositionOk(s', g) && ProgressOk(s', g)
      ensures s.count == 1 ==> !s'.Gathered(g)
      ensures s.count != 1 ==> !s'.Released(g)
    {
      TeamPart(s, g);
      DecrementMember(s, f, s', g);
    }
    DecrementAssemble(s, f, s');
  }

  lemma DecrementAssemble(s: State, f: FiberId, s': State)
    requires Moves(s, Decrement(f), s') && Inv(s.w) && Private(s) && CountOk(s) && s.last == None
    requires s'.Inside() == s.Inside() + {f} && |s'.Inside()| == |s.Inside()| + 1 && |s'.Inside()| <= |s.team|
    requires |s'.Inside()| == |s.team| ==> s'.Inside() == s.team
    requires TeamOk(s') && LeaversFirst(s')
    requires if s.count == 1 then NoneGathered(s') else NoneReleased(s')
    ensures Good(s') && (s'.count == 0 <==> s'.Inside() == s.team)
  {
    hide Inv, PositionOk, ProgressOk, LeaversFirst, NoneGathered, NoneReleased;
  }

  lemma IncrementMember(s: State, f: FiberId, s': State, g: FiberId)
    requires Moves(s, Increment(f), s') && PositionOk(s, f) && ProgressOk(s, f)
    requires g in s.team && PositionOk(s, g) && ProgressOk(s, g)
    requires s.last == None && NoneGathered(s)
    ensures PositionOk(s', g) && ProgressOk(s', g)
    ensures !s'.Gathered(g)
  {
    assert s.Released(f);
    assert g != f ==> !s.Owns(g);
  }

  lemma IncrementQueue(s: State, f: FiberId, s': State)
    requires Good(s) && Moves(s, Increment(f), s')
    ensures LeaversFirst(s')
  {
    StillQueued(s, s', f);
  }

  /** A fiber that runs inside the barrier has been released, and the broadcast is over. */
  lemma LeaverIsReleased(s: State, f: FiberId)
    requires Good(s) && f in s.team && s.Pc(f) == Leaving && s.Ctl(f) == Running
    ensures s.Released(f) && NoneGathered(s) && s.last == None
  {
    TeamPart(s, f);
    if s.last.Some? { TeamPart(s, s.last.value); }
    hide Inv;
  }

  lemma IncrementKeeps(s: State, f: FiberId, s': State)
    requires Good(s) && Moves(s, Increment(f), s')
    ensures Good(s')
  {
    hide Inv, Good, PositionOk, ProgressOk, LeaversFirst;
    RuntimePart(s);
    TeamPart(s, f);
    CountPart(s);
    LeaverIsReleased(s, f);
    InsideGrows(s', s, f);
    IncrementQueue(s, f, s');
    forall g | g in s.team
      ensures PositionOk(s', g) && ProgressOk(s', g)
      ensures !s'.Gathered(g)
    {
      TeamPart(s, g);
      IncrementMember(s, f, s', g);
    }
    IncrementAssemble(s, f, s');
  }

  lemma IncrementAssemble(s: State, f: FiberId, s': State)
    requires Moves(s, Increment(f), s') && Inv(s.w) && Private(s) && CountOk(s) && s.last == None
    requires |s.Inside()| == |s'.Inside()| + 1 && |s.Inside()| <= |s.team|
    requires TeamOk(s') && LeaversFirst(s') && NoneGathered(s')
    ensures Good(s')
  {
    hide Inv, PositionOk, ProgressOk, LeaversFirst, NoneGathered, NoneReleased;
  }

  // ---- The calls to broadcast, wait and unlock, and the return ------------------------------

  lemma CallBroadcastEffect(s: State, f: FiberId, s': State)
    requires Private(s) && f in s.team && Moves(s, CallBroadcast(f), s')
    ensures TeamKept(s, s', f, f)
    ensures s'.Ctl(f) == SignalLoop(s.c, 0, 0, |s.w.mem.C(s.c)|) && s'.w.mem.mutexes == s.w.mem.mutexes
  {
  }

  lemma CallBroadcastSelf(s: State, f: FiberId, s': State)
    requires Moves(s, CallBroadcast(f), s') && PositionOk(s, f) && ProgressOk(s, f)
    requires s'.Ctl(f).SignalLoop? && s'.Ctl(f).cond == s.c && s'.Ctl(f).nb == 0 && s'.w.mem.mutexes == s.w.mem.mutexes
    ensures PositionOk(s', f) && ProgressOk(s', f) && s'.Broadcasting(f)
  {
  }

  lemma CallBroadcastKeeps(s: State, f: FiberId, s': State)
    requires Good(s) && Moves(s, CallBroadcast(f), s')
    ensures Good(s')
  {
    hide Inv, Next, Good, PositionOk, ProgressOk, NoneReleased, NoneGathered, LeaversFirst;
    RuntimePart(s);
    TeamPart(s, f);
    Safety.NextKeeps(s.w, SignalBegin(f, s.c, 0), s'.w);
    CallBroadcastEffect(s, f, s');
    CallBroadcastSelf(s, f, s');
    SameQueue(s, s', f);
    Reassemble(s, s', f, f);
  }

  lemma CallWaitEffect(s: State, f: FiberId, s': State)
    requires Private(s) && f in s.team && Moves(s, CallWait(f), s')
    ensures TeamKept(s, s', f, f)
    ensures s'.Ctl(f) == Waiting(s.c, s.m, false, Pushed, false)
    ensures s'.w.mem.F(f).lockCount == s.w.mem.M(s.m).lockCount && s'.w.mem.mutexes == s.w.mem.mutexes
  {
  }

  lemma CallWaitSelf(s: State, f: FiberId, s': State)
    requires Moves(s, CallWait(f), s') && PositionOk(s, f) && ProgressOk(s, f)
    requires s'.Ctl(f) == Waiting(s.c, s.m, false, Pushed, false) && s'.w.mem.F(f).lockCount == 1
    ensures PositionOk(s', f) && ProgressOk(s', f)
  {
  }

  lemma ToWaitFacts(s: State, f: FiberId)
    requires Good(s) && f in s.team && (s.Pc(f) == ToWait || s.Pc(f) == ToUnlock)
    ensures s.w.mem.M(s.m).lockCount == 1 && s.Owns(f) && s.Ctl(f) == Running
    ensures s.last != Some(f)
  {
    TeamPart(s, f);
    RunningOwnsOnce(s, f);
    hide Inv;
  }

  lemma CallWaitKeeps(s: State, f: FiberId, s': State)
    requires Good(s) && Moves(s, CallWait(f), s')
    ensures Good(s')
  {
    hide Inv, Next, Good, PositionOk, ProgressOk, NoneReleased, NoneGathered, LeaversFirst;
    RuntimePart(s);
    TeamPart(s, f);
    ToWaitFacts(s, f);
    Safety.NextKeeps(s.w, CondWait(f, s.c, s.m), s'.w);
    CallWaitEffect(s, f, s');
    CallWaitSelf(s, f, s');
    SameQueue(s, s', f);
    Reassemble(s, s', f, f);
  }

  lemma CallUnlockEffect(s: State, f: FiberId, s': State)
    requires Private(s) && f in s.team && Moves(s, CallUnlock(f), s') && s.w.mem.M(s.m).lockCount == 1
    ensures TeamKept(s, s', f, f)
    ensures s'.Ctl(f) == Unlocking(s.m, false) && s'.w.mem.M(s.m) == s.w.mem.M(s.m).(lockCount := 0)
  {
  }

  lemma CallUnlockSelf(s: State, f: FiberId, s': State)
    requires Moves(s, CallUnlock(f), s') && PositionOk(s, f) && ProgressOk(s, f)
    requires s'.Ctl(f) == Unlocking(s.m, false)
    ensures PositionOk(s', f) && ProgressOk(s', f)
  {
  }

  lemma CallUnlockKeeps(s: State, f: FiberId, s': State)
    requires Good(s) && Moves(s, CallUnlock(f), s')
    ensures Good(s')
  {
    hide Inv, Next, Good, PositionOk, ProgressOk, NoneReleased, NoneGathered, LeaversFirst;
    RuntimePart(s);
    TeamPart(s, f);
    ToWaitFacts(s, f);
    Safety.NextKeeps(s.w, Unlock(f, s.m), s'.w);
    CallUnlockEffect(s, f, s');
    CallUnlockSelf(s, f, s');
    SameQueue(s, s', f);
    Reassemble(s, s', f, f);
  }

  lemma ReturnSelf(s: State, f: FiberId, s': State)
    requires Moves(s, Return(f), s') && PositionOk(s, f) && ProgressOk(s, f)
    ensures PositionOk(s', f) && ProgressOk(s', f)
  {
  }

  lemma ReturnKeeps(s: State, f: FiberId, s': State)
    requires Good(s) && Moves(s, Return(f), s')
    ensures Good(s')
  {
    hide Inv, Good, PositionOk, ProgressOk, NoneReleased, NoneGathered, LeaversFirst;
    RuntimePart(s);
    TeamPart(s, f);
    LastNotOutside(s, f);
    ReturnSelf(s, f, s');
    SameQueue(s, s', f);
    Reassemble(s, s', f, f);
  }

  // ---- The steps inside a call --------------------------------------------------------------

  /** A step of the runtime leaves the barrier's own fields alone. */
  lemma ContinueLedger(s: State, x: Step, s': State, f: FiberId)
    requires Moves(s, Continue(x), s') || Moves(s, Elsewhere(x), s')
    ensures SameLedger(s, s', f) && s'.m == s.m && s'.c == s.c
    ensures !x.SignalEnd? || Moves(s, Elsewhere(x), s') ==> s'.last == s.last
  {
    hide Next, Continues, Foreign, Courteous;
  }

  lemma DispatchEffect(s: State, f: FiberId, s': State)
    requires Private(s) && f in s.team && Moves(s, Continue(Dispatch), s') && f == s.w.mem.ready[0]
    ensures TeamKept(s, s', f, f)
    ensures s'.Ctl(f) == Running && s'.w.mem.mutexes == s.w.mem.mutexes
  {
  }

  lemma DispatchSelf(s: State, f: FiberId, s': State)
    requires Moves(s, Continue(Dispatch), s') && PositionOk(s, f) && ProgressOk(s, f) && FiberOk(s.w, f)
    requires s.Ctl(f).Runnable? && s'.Ctl(f) == Running && s'.w.mem.mutexes == s.w.mem.mutexes
    requires NoneReleased(s) <==> NoneReleased(s')
    ensures PositionOk(s', f) && ProgressOk(s', f)
  {
  }

  lemma RunnableNotLast(s: State, f: FiberId)
    requires PositionOk(s, f) && LastOk(s)
    requires (s.Ctl(f).Runnable? || s.Ctl(f).Waiting? || s.Ctl(f).Unlocking? || s.Ctl(f).Locking?)
    ensures s.last != Some(f)
  {
  }

  lemma LastPart(s: State)
    requires Good(s)
    ensures LastOk(s)
  {
  }

  lemma DispatchKeeps(s: State, s': State)
    requires Good(s) && Moves(s, Continue(Dispatch), s')
    ensures Good(s')
  {
    hide Inv, Next, Good, PositionOk, ProgressOk, NoneReleased, NoneGathered, LeaversFirst, FiberOk;
    var f := s.w.mem.ready[0];
    RuntimePart(s);
    TeamPart(s, f);
    LastPart(s);
    Outcomes.DispatchFacts(s.w, s'.w, f);
    Safety.NextKeeps(s.w, Dispatch, s'.w);
    DispatchEffect(s, f, s');
    ContinueLedger(s, Dispatch, s', f);
    LedgerFacts(s, s', f);
    DispatchSelf(s, f, s');
    RunnableNotLast(s, f);
    SameQueue(s, s', f);
    Reassemble(s, s', f, f);
  }
}
